/** The browser's return page after payment (app/donation/callback/page.tsx):
    pick the transaction reference from the query string, ask the verify
    route about it, and classify the answer into what the page shows. */
module Callback {
  import opened Wrappers
  import opened Json
  import opened Gateway
  import opened Schemas
  import Verify

  const NoReference := "Geen transaksieverwysing gevind nie"
  const VerificationFailed := "Transaction verification failed"
  const RecurringDonation := "Jou herhalende skenking is suksesvol opgestel!"
  const SingleDonation := "Jou skenking is suksesvol verwerk!"
  const PaymentUnsuccessful := "Betaling was nie suksesvol nie"
  const MonthlyLabel := "Maandeliks"
  const AnnualLabel := "Jaarliks"
  const RecurringLabel := "Herhalend"

  /** A message on the page: a text, a non-string JSON value shown through
      JavaScript's string conversion, or the message of an exception the
      runtime raised (a `TypeError`, a JSON `SyntaxError`, a network error). */
  datatype Notice = Says(text: string) | Shows(value: Json) | RuntimeMessage

  /** The page's `status` with its `message` and `transactionData`. */
  datatype View = Loading | Succeeded(message: string, stored: Json) | Failed(notice: Notice)

  /** The answer to the page's `fetch`: a rejected fetch, or a response with
      its `ok` flag and its body (`None` when `response.json()` rejects). */
  datatype Fetched = NetworkFailure | Answered(ok: bool, body: Option<Json>)

  /** `reference || trxref`, kept only when truthy. */
  function ChooseReference(reference: Option<string>, trxref: Option<string>): (r: Option<string>)
    ensures r.Some? ==> r.value != ""
    ensures reference.Some? && reference.value != "" ==> r == reference
    ensures (reference.None? || reference.value == "") ==>
      (r.Some? <==> trxref.Some? && trxref.value != "") && (r.Some? ==> r == trxref)
  {
    var txRef := if reference.Some? && reference.value != "" then reference else trxref;
    if txRef.Some? && txRef.value != "" then txRef else None
  }

  /** A value placed in the message: strings as they are. */
  function NoticeOf(v: Json): Notice
  {
    if v.JStr? then Says(v.s) else Shows(v)
  }

  /** The stored `safeTransactionData`, read the way the page reads it:
      plain member reads on the transaction, optional chaining below it. */
  function StoredData(t: Json): (r: Json)
    requires !t.JNull?
    ensures r.JObj? && r.fields.Keys <= Verify.SafeKeys
    ensures "customer" in r.fields && r.fields["customer"].JObj? && r.fields["customer"].fields.Keys <= {"email"}
    ensures "metadata" in r.fields && r.fields["metadata"].JObj? && r.fields["metadata"].fields.Keys <= {"plan_interval"}
  {
    var amount := Read(t, "amount");
    var currency := Read(t, "currency");
    var reference := Read(t, "reference");
    var plan := Read(t, "plan");
    var customer := Read(t, "customer");
    var metadata := Read(t, "metadata");
    var email := if customer.Value? && !customer.v.JNull? then Read(customer.v, "email") else Undefined;
    var interval := if metadata.Value? && !metadata.v.JNull? then Read(metadata.v, "plan_interval") else Undefined;
    var top := Put(Put(Put(Put(map[], "amount", Defined(amount)), "currency", Defined(currency)),
                       "reference", Defined(reference)), "plan", Defined(plan));
    JObj(top["customer" := JObj(Put(map[], "email", Defined(email)))]
            ["metadata" := JObj(Put(map[], "plan_interval", Defined(interval)))])
  }

  /** The value a read produced, if it produced one. */
  function Defined(a: Access): (r: Option<Json>)
    ensures r.Some? <==> a.Value?
  {
    if a.Value? then Some(a.v) else None
  }

  /** The body of `verifyTransaction` after the response arrived. */
  function Classify(f: Fetched): (v: View)
    ensures !v.Loading?
    ensures v.Succeeded? ==> f.Answered? && f.ok && f.body.Some?
    ensures v.Succeeded? ==> v.message == RecurringDonation || v.message == SingleDonation
    ensures f.NetworkFailure? ==> v == Failed(RuntimeMessage)
  {
    if f.NetworkFailure? || f.body.None? then Failed(RuntimeMessage)
    else
      var data := f.body.value;
      if !f.ok then
        match Read(data, "error")
        case Throws => Failed(RuntimeMessage)
        case Value(v) => if Truthy(v) then Failed(NoticeOf(v)) else Failed(Says(VerificationFailed))
        case Undefined => Failed(Says(VerificationFailed))
      else
        var status := Read(data, "status");
        if status.Throws? then Failed(RuntimeMessage)
        else if status == Value(JStr("success")) then
          var tx := Read(data, "transaction");
          if !tx.Value? || tx.v.JNull? then Failed(RuntimeMessage)
          else
            var plan := Read(tx.v, "plan");
            var recurring := plan.Value? && Truthy(plan.v);
            Succeeded(if recurring then RecurringDonation else SingleDonation, StoredData(tx.v))
        else
          match Read(data, "gateway_response")
          case Value(v) => if Truthy(v) then Failed(NoticeOf(v)) else Failed(Says(PaymentUnsuccessful))
          case _ => Failed(Says(PaymentUnsuccessful))
  }

  /** The effect on page load: without a usable reference the page fails at
      once and requests nothing; otherwise it requests that reference and
      classifies `answer`, the outcome of that request. */
  function Visit(reference: Option<string>, trxref: Option<string>, answer: Fetched): (r: (View, Option<string>))
    ensures r.1.Some? ==> r.1.value != "" && (r.1 == reference || r.1 == trxref)
    ensures r.1.None? ==> r.0 == Failed(Says(NoReference))
  {
    var r := ChooseReference(reference, trxref);
    if r.None? then (Failed(Says(NoReference)), None)
    else (Classify(answer), r)
  }

  /** `getFrequencyText` for the stored data of a successful page. */
  function FrequencyText(stored: Json): (r: Option<string>)
    ensures r.Some? <==> Get(stored, "plan").Some? && Truthy(Get(stored, "plan").value)
    ensures r.Some? ==> r.value in {MonthlyLabel, AnnualLabel, RecurringLabel}
  {
    var plan := Get(stored, "plan");
    if !(plan.Some? && Truthy(plan.value)) then None
    else
      var interval := Verify.Nested(stored, "metadata", "plan_interval");
      if interval == Some(JStr("monthly")) then Some(MonthlyLabel)
      else if interval == Some(JStr("annually")) then Some(AnnualLabel)
      else Some(RecurringLabel)
  }

  /** How a server reply reaches the page: `ok` is a 2xx status; the
      framework's page for a rejected handler is not JSON. */
  function Deliver(r: Reply): (f: Fetched)
    ensures f.Answered?
    ensures f.ok <==> r.IsOk()
    ensures f.body.Some? <==> r.Reply?
  {
    match r
    case Reply(status, body) => Answered(200 <= status < 300, Some(body))
    case Unhandled => Answered(false, None)
  }

  // ---------------------------------------------------------------------
  // Properties

  /** Without a usable reference the page shows "Geen transaksieverwysing
      gevind nie" and does not call the server; with one, it asks about
      exactly that reference. */
  lemma VisitReference(reference: Option<string>, trxref: Option<string>, answer: Fetched)
    ensures var (view, requested) := Visit(reference, trxref, answer);
      && (requested.None? <==> (reference.None? || reference.value == "") && (trxref.None? || trxref.value == ""))
      && (requested.None? ==> view == Failed(Says(NoReference)))
      && (requested.Some? ==> view == Classify(answer))
      && (reference.Some? && reference.value != "" ==> requested == reference)
  {
  }

  /** The page's own copy of the projection equals the verify route's. */
  lemma StoredMatchesProjection(t: Json)
    requires !t.JNull?
    ensures StoredData(t) == Verify.SafeTransaction(t)
  {
    var s, p := StoredData(t), Verify.SafeTransaction(t);
    Verify.SafeTransactionShape(t);
    assert s.fields["customer"] == p.fields["customer"];
    assert s.fields["metadata"] == p.fields["metadata"];
  }

  /** A failed fetch, or a body that is not JSON, surfaces the runtime's own
      message. */
  lemma RuntimeFailures(ok: bool)
    ensures Classify(NetworkFailure) == Failed(RuntimeMessage)
    ensures Classify(Answered(ok, None)) == Failed(RuntimeMessage)
  {
  }

  /** A response that is not ok shows its `error` member when truthy and the
      default otherwise; a `null` body makes the read itself throw. */
  lemma NotOkClassified(data: Json)
    ensures var view := Classify(Answered(false, Some(data)));
      && (data.JNull? ==> view == Failed(RuntimeMessage))
      && (!data.JNull? && Get(data, "error").Some? && Truthy(Get(data, "error").value) ==>
            view == Failed(NoticeOf(Get(data, "error").value)))
      && (!data.JNull? && !(Get(data, "error").Some? && Truthy(Get(data, "error").value)) ==>
            view == Failed(Says(VerificationFailed)))
  {
  }

  /** An ok response whose `status` is not "success" shows its
      `gateway_response` when truthy, and "Betaling was nie suksesvol nie"
      otherwise. */
  lemma OtherPayloadClassified(data: Json)
    requires !data.JNull? && Get(data, "status") != Some(JStr("success"))
    ensures var view := Classify(Answered(true, Some(data)));
      var gr := Get(data, "gateway_response");
      && (gr.Some? && Truthy(gr.value) ==> view == Failed(NoticeOf(gr.value)))
      && (!(gr.Some? && Truthy(gr.value)) ==> view == Failed(Says(PaymentUnsuccessful)))
  {
  }

  /** A success answer whose `transaction` is missing or `null` throws while
      reading its plan. */
  lemma MissingTransactionThrows(data: Json)
    requires Get(data, "status") == Some(JStr("success"))
    requires Get(data, "transaction").None? || Get(data, "transaction") == Some(JNull)
    ensures Classify(Answered(true, Some(data))) == Failed(RuntimeMessage)
  {
  }

  /** An answer marked successful shows the recurring message exactly when
      the transaction's plan is truthy, and stores the projection. */
  lemma SuccessClassified(data: Json, t: Json)
    requires data.JObj? && "status" in data.fields && data.fields["status"] == JStr("success")
    requires "transaction" in data.fields && data.fields["transaction"] == t && !t.JNull?
    ensures var view := Classify(Answered(true, Some(data)));
      && view.Succeeded?
      && (view.message == RecurringDonation <==> Get(t, "plan").Some? && Truthy(Get(t, "plan").value))
      && (view.message != RecurringDonation ==> view.message == SingleDonation)
      && view.stored == Verify.SafeTransaction(t)
  {
    StoredMatchesProjection(t);
  }

  /** An error reply `{error: m}` shows `m`, or the default when `m` is empty. */
  lemma ErrorReplyShown(status: int, m: string)
    requires !(200 <= status < 300)
    ensures Classify(Deliver(Reply(status, ErrorBody(m)))) ==
      Failed(Says(if m != "" then m else VerificationFailed))
  {
  }

  /** A success body carrying the projection of record `j` is shown as a
      success storing that projection unchanged. */
  lemma ProjectionShown(j: Json)
    ensures var p := Verify.SafeTransaction(j);
      var view := Classify(Answered(true, Some(JObj(map["status" := JStr("success"), "transaction" := p]))));
      && view.Succeeded?
      && view.stored == p
      && (view.message == RecurringDonation <==> Get(j, "plan").Some? && Truthy(Get(j, "plan").value))
  {
    var p := Verify.SafeTransaction(j);
    var body := JObj(map["status" := JStr("success"), "transaction" := p]);
    assert body.fields["status"] == JStr("success") && body.fields["transaction"] == p;
    Verify.SafeTransactionShape(j);
    SuccessClassified(body, p);
    Verify.SafeTransactionIdempotent(j);
  }

  /** The verify route's success body is shown as a success storing the
      projection unchanged, with the recurring message exactly when the
      transaction has a non-empty plan code. */
  lemma SuccessBodyShown(t: Verify.Transaction)
    ensures var view := Classify(Answered(true, Some(Verify.SuccessBody(t))));
      && view.Succeeded?
      && view.stored == Verify.SafeTransaction(Verify.TransactionJson(t))
      && (view.message == RecurringDonation <==> t.plan.Some? && t.plan.value.Some? && t.plan.value.value != "")
  {
    ProjectionShown(Verify.TransactionJson(t));
    Verify.TransactionPlan(t);
  }

  /** End to end: a `GET` reply of the verify route that is a success reaches
      the page as a success storing exactly what the server projected. */
  lemma ServerSuccessShown(query: string, reply: Call<Verify.Transaction>)
    requires reply.Replied? && reply.status && reply.data.status == "success"
    ensures var t := reply.data;
      var view := Classify(Deliver(Verify.HandleGet(Some(query), reply).reply));
      && view.Succeeded?
      && view.stored == Verify.SafeTransaction(Verify.TransactionJson(t))
      && (view.message == RecurringDonation <==> t.plan.Some? && t.plan.value.Some? && t.plan.value.value != "")
  {
    Verify.GetSucceeds(query, reply);
    SuccessBodyShown(reply.data);
  }

  /** End to end: every other `GET` reply reaches the page as the route's
      `error` text (the default when it is empty), never through the page's
      gateway-response branch; an accepted but unsuccessful transaction shows
      "Transaction was not successful". */
  lemma ServerFailureShown(query: string, reply: Call<Verify.Transaction>)
    requires !Verify.HandleGet(Some(query), reply).reply.IsOk()
    ensures var r := Verify.HandleGet(Some(query), reply).reply;
      && r.Reply? && r.body.JObj? && "error" in r.body.fields && r.body.fields["error"].JStr?
      && Classify(Deliver(r)) == Failed(Says(
           if r.body.fields["error"].s != "" then r.body.fields["error"].s else VerificationFailed))
      && (reply.Replied? && reply.status ==>
            Classify(Deliver(r)) == Failed(Says("Transaction was not successful")))
  {
    Verify.GetSucceeds(query, reply);
  }

  /** The frequency label: none for a single donation, otherwise named after
      the interval the initialize route recorded, "Herhalend" for any other. */
  lemma FrequencyLabels(stored: Json, i: Interval)
    requires stored.JObj? && "plan" in stored.fields && Truthy(stored.fields["plan"])
    requires "metadata" in stored.fields && stored.fields["metadata"].JObj?
    requires "plan_interval" in stored.fields["metadata"].fields
    requires stored.fields["metadata"].fields["plan_interval"] == JStr(i.Name())
    ensures FrequencyText(stored) == Some(match i
      case Monthly => "Maandeliks"
      case Annually => "Jaarliks"
      case OneOff => "Herhalend")
  {
  }

  /** The `default:` branch: any other interval, a non-string one, or none
      at all, gives "Herhalend" for a subscription. */
  lemma FrequencyDefault(stored: Json)
    requires Get(stored, "plan").Some? && Truthy(Get(stored, "plan").value)
    requires Verify.Nested(stored, "metadata", "plan_interval") != Some(JStr("monthly"))
    requires Verify.Nested(stored, "metadata", "plan_interval") != Some(JStr("annually"))
    ensures FrequencyText(stored) == Some("Herhalend")
  {
  }

  lemma NoFrequencyForSingle(stored: Json)
    requires !(Get(stored, "plan").Some? && Truthy(Get(stored, "plan").value))
    ensures FrequencyText(stored).None?
  {
  }
}
