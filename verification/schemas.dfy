/** The data shapes of lib/schemas.ts: the donation plan, the initialize
    request with its e-mail pattern, and the webhook envelope, each with the
    decoder Effect's `Schema.decodeUnknown` applies to parsed JSON. Decoding
    ignores fields the schema does not declare. */
module Schemas {
  import opened Wrappers
  import opened Text
  import opened Json

  // ---------------------------------------------------------------------
  // Donation plans

  datatype Interval = Monthly | Annually | OneOff
  {
    /** The literal the schema admits for this interval. */
    function Name(): string
    {
      match this
      case Monthly => "monthly"
      case Annually => "annually"
      case OneOff => "one-off"
    }
  }

  /** `Schema.Literal("monthly", "annually", "one-off")`. */
  function ParseInterval(s: string): (r: Option<Interval>)
    ensures r.Some? <==> s in {"monthly", "annually", "one-off"}
    ensures r.Some? ==> r.value.Name() == s
  {
    if s == "monthly" then Some(Monthly)
    else if s == "annually" then Some(Annually)
    else if s == "one-off" then Some(OneOff)
    else None
  }

  /** Every interval's name parses back to it. */
  lemma IntervalRoundTrip(i: Interval)
    ensures ParseInterval(i.Name()) == Some(i)
  {
  }

  datatype DonationPlan = DonationPlan(
    id: string,
    name: string,
    amount: int,
    currency: string,
    interval: Interval,
    planCode: Option<string>,
    description: Option<string>)

  /** A required string field. */
  function StringField(f: map<string, Json>, k: string): (r: Option<string>)
    ensures r.Some? <==> k in f && f[k].JStr?
    ensures r.Some? ==> f[k] == JStr(r.value)
  {
    if k in f && f[k].JStr? then Some(f[k].s) else None
  }

  /** `Schema.optional(Schema.String)`: absent is accepted as `None`, a string as
      `Some`, anything else rejects (outer `None`). */
  function OptionalString(f: map<string, Json>, k: string): (r: Option<Option<string>>)
    ensures r.None? <==> k in f && !f[k].JStr?
    ensures r == Some(None) <==> k !in f
    ensures forall s :: r == Some(Some(s)) <==> k in f && f[k] == JStr(s)
  {
    if k !in f then Some(None)
    else if f[k].JStr? then Some(Some(f[k].s))
    else None
  }

  /** Decoding with `DonationPlanSchema`. */
  function DecodePlan(v: Json): (r: Option<DonationPlan>)
  {
    if !v.JObj? then None
    else
      var f := v.fields;
      var interval := if "interval" in f && f["interval"].JStr? then ParseInterval(f["interval"].s) else None;
      if && StringField(f, "id").Some?
         && StringField(f, "name").Some?
         && "amount" in f && f["amount"].JNum?
         && StringField(f, "currency").Some?
         && interval.Some?
         && OptionalString(f, "planCode").Some?
         && OptionalString(f, "description").Some?
      then
        Some(DonationPlan(f["id"].s, f["name"].s, f["amount"].n, f["currency"].s,
                          interval.value, OptionalString(f, "planCode").value,
                          OptionalString(f, "description").value))
      else None
  }

  /** The JSON form of a plan; optional fields that are absent are omitted. */
  function EncodePlan(p: DonationPlan): (v: Json)
    ensures v.JObj?
  {
    var base := map[
      "id" := JStr(p.id), "name" := JStr(p.name), "amount" := JNum(p.amount),
      "currency" := JStr(p.currency), "interval" := JStr(p.interval.Name())];
    var withCode := Put(base, "planCode", if p.planCode.Some? then Some(JStr(p.planCode.value)) else None);
    JObj(Put(withCode, "description", if p.description.Some? then Some(JStr(p.description.value)) else None))
  }

  /** What each key of an encoded plan holds. */
  lemma EncodePlanFields(p: DonationPlan)
    ensures var f := EncodePlan(p).fields;
      && StringField(f, "id") == Some(p.id)
      && StringField(f, "name") == Some(p.name)
      && "amount" in f && f["amount"] == JNum(p.amount)
      && StringField(f, "currency") == Some(p.currency)
      && "interval" in f && f["interval"] == JStr(p.interval.Name())
      && OptionalString(f, "planCode") == Some(p.planCode)
      && OptionalString(f, "description") == Some(p.description)
  {
  }

  /** A plan survives encoding and decoding unchanged. */
  lemma PlanRoundTrip(p: DonationPlan)
    ensures DecodePlan(EncodePlan(p)) == Some(p)
  {
    EncodePlanFields(p);
    IntervalRoundTrip(p.interval);
  }

  /** A decoded plan has all its required fields, with an interval that is
      exactly one of the three literals; `planCode` and `description` may be
      missing. */
  lemma DecodePlanShape(v: Json)
    requires DecodePlan(v).Some?
    ensures v.JObj?
    ensures forall k :: k in {"id", "name", "amount", "currency", "interval"} ==> k in v.fields
    ensures v.fields["interval"] in {JStr("monthly"), JStr("annually"), JStr("one-off")}
    ensures DecodePlan(v).value.planCode.None? <==> "planCode" !in v.fields
    ensures DecodePlan(v).value.description.None? <==> "description" !in v.fields
  {
  }

  /** An object whose interval is any other string is rejected. */
  lemma DecodePlanRejectsInterval(v: Json)
    requires v.JObj? && "interval" in v.fields
    requires v.fields["interval"].JStr? && v.fields["interval"].s !in {"monthly", "annually", "one-off"}
    ensures DecodePlan(v).None?
  {
  }

  // ---------------------------------------------------------------------
  // The e-mail pattern of CreateSubscriptionRequestSchema

  /** The local-part class `[a-zA-Z0-9.!#$%&'*+/=?^_`{|}~-]`: the atext set of
      section 3.2.3 of RFC 5322, plus '.'. */
  predicate IsLocalChar(c: char)
  {
    IsAlnum(c) || c in ".!#$%&'*+/=?^_`{|}~-"
  }

  /** The domain label class `[a-zA-Z0-9-]`. */
  predicate IsLabelChar(c: char)
  {
    IsAlnum(c) || c == '-'
  }

  predicate ValidLocalPart(l: string)
  {
    |l| > 0 && forall i :: 0 <= i < |l| ==> IsLocalChar(l[i])
  }

  /** `[a-zA-Z0-9](?:[a-zA-Z0-9-]{0,61}[a-zA-Z0-9])?`: 1 to 63 characters,
      alphanumeric at both ends, hyphens allowed inside (section 2.3.1 of
      RFC 1035 as relaxed by section 2.1 of RFC 1123). */
  predicate ValidLabel(l: string)
  {
    && 1 <= |l| <= 63
    && IsAlnum(l[0]) && IsAlnum(l[|l| - 1])
    && forall i :: 0 <= i < |l| ==> IsLabelChar(l[i])
  }

  /** `label(?:\.label)*`: the dot-separated pieces are all labels. */
  predicate ValidDomain(d: string)
  {
    var labels := Split(d, '.');
    forall k :: 0 <= k < |labels| ==> ValidLabel(labels[k])
  }

  /** The anchored pattern `^local+@label(\.label)*$`. Neither class contains
      '@', so a match splits on '@' into exactly two pieces. */
  predicate EmailPattern(s: string)
  {
    var parts := Split(s, '@');
    |parts| == 2 && ValidLocalPart(parts[0]) && ValidDomain(parts[1])
  }

  /** A domain is non-empty, free of whitespace, and ends alphanumeric. */
  lemma DomainFacts(d: string)
    requires ValidDomain(d)
    ensures NoWhitespace(d)
    ensures |d| > 0 && IsAlnum(d[|d| - 1])
  {
    var labels := Split(d, '.');
    JoinSplit(d, '.');
    assert NoWhitespace(d) by {
      forall k, i | 0 <= k < |labels| && 0 <= i < |labels[k]|
        ensures !IsWhitespace(labels[k][i])
      {
        assert IsLabelChar(labels[k][i]);
      }
      JoinPreserves(labels, '.', c => !IsWhitespace(c));
    }
    assert |d| > 0 && IsAlnum(d[|d| - 1]) by {
      JoinLast(labels, '.');
    }
  }

  /** Local-part characters are printable ASCII, which holds no whitespace. */
  lemma LocalCharPrintable(c: char)
    requires IsLocalChar(c)
    ensures '!' <= c <= '~' && !IsWhitespace(c)
  {
  }

  lemma LocalNoWhitespace(l: string)
    requires ValidLocalPart(l)
    ensures NoWhitespace(l)
  {
    forall i | 0 <= i < |l| ensures !IsWhitespace(l[i]) {
      LocalCharPrintable(l[i]);
    }
  }

  /** A match is its local part, '@', and its domain. */
  lemma EmailParts(s: string)
    requires |Split(s, '@')| == 2
    ensures s == Split(s, '@')[0] + "@" + Split(s, '@')[1]
  {
    var parts := Split(s, '@');
    JoinSplit(s, '@');
    assert Join(parts[1..], '@') == parts[1];
  }

  /** What the pattern guarantees: exactly one '@', a non-empty local part,
      no whitespace anywhere, and a last character that is alphanumeric. */
  lemma EmailPatternFacts(s: string)
    requires EmailPattern(s)
    ensures Count(s, '@') == 1
    ensures |Split(s, '@')[0]| > 0
    ensures NoWhitespace(s)
    ensures |s| > 0 && IsAlnum(s[|s| - 1])
    ensures s == Split(s, '@')[0] + "@" + Split(s, '@')[1]
  {
    var parts := Split(s, '@');
    EmailParts(s);
    DomainFacts(parts[1]);
    var local, domain := parts[0], parts[1];
    LocalNoWhitespace(local);
    NoWhitespaceJoin(local, '@', domain);
    assert s[|s| - 1] == domain[|domain| - 1];
  }

  /** The domain side of a match is non-empty and has no ".." in it. */
  lemma EmailDomainFacts(s: string)
    requires EmailPattern(s)
    ensures var d := Split(s, '@')[1]; |d| > 0 && !IncludesPair(d, '.', '.')
    ensures var labels := Split(Split(s, '@')[1], '.'); |labels[|labels| - 1]| >= 1
  {
    var d := Split(s, '@')[1];
    var labels := Split(d, '.');
    JoinSplit(d, '.');
    JoinLast(labels, '.');
    if IncludesPair(d, '.', '.') {
      var i :| 0 <= i < |d| - 1 && d[i] == '.' && d[i + 1] == '.';
      NoDoubleSeparator(labels, '.', i);
      assert false;
    }
  }

  /** In a join of non-empty separator-free pieces, no two separators are
      adjacent. */
  lemma {:induction false} NoDoubleSeparator(parts: seq<string>, sep: char, i: int)
    requires |parts| >= 1
    requires forall k :: 0 <= k < |parts| ==> |parts[k]| > 0 && sep !in parts[k]
    requires 0 <= i < |Join(parts, sep)| - 1
    ensures !(Join(parts, sep)[i] == sep && Join(parts, sep)[i + 1] == sep)
  {
    var j := Join(parts, sep);
    if |parts| > 1 {
      var t := Join(parts[1..], sep);
      assert j == parts[0] + [sep] + t;
      if i < |parts[0]| {
        assert j[i] == parts[0][i];
      } else if i == |parts[0]| {
        JoinFirst(parts[1..], sep);
        assert j[i + 1] == t[0] == parts[1][0];
      } else {
        assert j[i] == t[i - |parts[0]| - 1];
        assert j[i + 1] == t[i - |parts[0]|];
        NoDoubleSeparator(parts[1..], sep, i - |parts[0]| - 1);
      }
    } else {
      assert j == parts[0];
    }
  }

  /** A join starts with the first character of its first piece, when that
      piece is not empty. */
  lemma JoinFirst(parts: seq<string>, sep: char)
    requires |parts| >= 1 && |parts[0]| > 0
    ensures |Join(parts, sep)| > 0 && Join(parts, sep)[0] == parts[0][0]
  {
  }

  /** Every character of a domain is a label character or a dot. */
  lemma DomainChars(d: string)
    requires ValidDomain(d)
    ensures forall i :: 0 <= i < |d| ==> IsLabelChar(d[i]) || d[i] == '.'
  {
    var labels := Split(d, '.');
    JoinSplit(d, '.');
    JoinPreserves(labels, '.', c => IsLabelChar(c) || c == '.');
  }

  /** Labels joined with dots form a domain that splits back into them. */
  lemma DomainIntro(labels: seq<string>)
    requires |labels| >= 1
    requires forall k :: 0 <= k < |labels| ==> ValidLabel(labels[k])
    ensures Split(Join(labels, '.'), '.') == labels
    ensures ValidDomain(Join(labels, '.'))
  {
    forall k | 0 <= k < |labels| ensures '.' !in labels[k] {
      assert forall i :: 0 <= i < |labels[k]| ==> labels[k][i] != '.';
    }
    SplitJoin(labels, '.');
  }

  /** A valid local part, '@' and a valid domain make a match that splits on
      '@' into exactly those two pieces. */
  lemma EmailPatternIntro(l: string, d: string)
    requires ValidLocalPart(l) && ValidDomain(d)
    ensures Split(l + "@" + d, '@') == [l, d]
    ensures EmailPattern(l + "@" + d)
  {
    assert '@' !in l by {
      assert forall i :: 0 <= i < |l| ==> IsLocalChar(l[i]) && l[i] != '@';
    }
    DomainChars(d);
    assert '@' !in d by {
      assert forall i :: 0 <= i < |d| ==> d[i] != '@';
    }
    assert l + "@" + d == l + ("@" + d);
    SplitPrefix(l, d, '@');
    SplitFree(d, '@');
  }

  // ---------------------------------------------------------------------
  // CreateSubscriptionRequestSchema

  datatype CreateSubscriptionRequest = CreateSubscriptionRequest(
    email: string,
    planId: string,
    firstName: Option<string>,
    lastName: Option<string>,
    phone: Option<string>)

  /** Decoding with `CreateSubscriptionRequestSchema`. */
  function DecodeRequest(v: Json): (r: Option<CreateSubscriptionRequest>)
    ensures r.Some? ==> EmailPattern(r.value.email)
  {
    if !v.JObj? then None
    else
      var f := v.fields;
      if && StringField(f, "email").Some? && EmailPattern(f["email"].s)
         && StringField(f, "planId").Some?
         && OptionalString(f, "firstName").Some?
         && OptionalString(f, "lastName").Some?
         && OptionalString(f, "phone").Some?
      then
        Some(CreateSubscriptionRequest(f["email"].s, f["planId"].s,
          OptionalString(f, "firstName").value, OptionalString(f, "lastName").value,
          OptionalString(f, "phone").value))
      else None
  }

  function OptStr(s: Option<string>): Option<Json>
  {
    if s.Some? then Some(JStr(s.value)) else None
  }

  /** `JSON.stringify` of a request body; absent optional fields are omitted. */
  function EncodeRequest(r: CreateSubscriptionRequest): (v: Json)
    ensures v.JObj?
  {
    var base := map["email" := JStr(r.email), "planId" := JStr(r.planId)];
    JObj(Put(Put(Put(base, "firstName", OptStr(r.firstName)), "lastName", OptStr(r.lastName)),
             "phone", OptStr(r.phone)))
  }

  /** A request decodes back to itself exactly when its e-mail matches the
      pattern: the pattern is the only constraint beyond field types. */
  lemma RequestRoundTrip(r: CreateSubscriptionRequest)
    ensures DecodeRequest(EncodeRequest(r)) == (if EmailPattern(r.email) then Some(r) else None)
  {
    var f := EncodeRequest(r).fields;
    assert f["email"] == JStr(r.email);
    assert f["planId"] == JStr(r.planId);
  }

  /** A decoded request needs a string `email` matching the pattern and a
      string `planId`; the name and phone fields may be missing. */
  lemma DecodeRequestShape(v: Json)
    requires DecodeRequest(v).Some?
    ensures v.JObj? && "email" in v.fields && "planId" in v.fields
    ensures v.fields["email"].JStr? && EmailPattern(v.fields["email"].s)
    ensures v.fields["planId"].JStr?
    ensures DecodeRequest(v).value.firstName.None? <==> "firstName" !in v.fields
    ensures DecodeRequest(v).value.lastName.None? <==> "lastName" !in v.fields
    ensures DecodeRequest(v).value.phone.None? <==> "phone" !in v.fields
  {
  }

  // ---------------------------------------------------------------------
  // WebhookEventSchema

  datatype WebhookEvent = WebhookEvent(event: string, data: map<string, Json>)

  /** Decoding with `WebhookEventSchema`. */
  function DecodeWebhookEvent(v: Json): (r: Option<WebhookEvent>)
    ensures r.Some? <==>
      v.JObj? && "event" in v.fields && v.fields["event"].JStr?
      && "data" in v.fields && v.fields["data"].JObj?
    ensures r.Some? ==>
      r.value.event == v.fields["event"].s && r.value.data == v.fields["data"].fields
  {
    if v.JObj? && StringField(v.fields, "event").Some? && "data" in v.fields && v.fields["data"].JObj?
    then Some(WebhookEvent(v.fields["event"].s, v.fields["data"].fields))
    else None
  }

  /** The envelope as JSON: `{ event, data }`. */
  function EncodeWebhookEvent(e: WebhookEvent): (v: Json)
    ensures v.JObj? && v.fields.Keys == {"event", "data"}
  {
    JObj(map["event" := JStr(e.event), "data" := JObj(e.data)])
  }

  /** Every envelope survives encoding and decoding. */
  lemma WebhookEventRoundTrip(e: WebhookEvent)
    ensures DecodeWebhookEvent(EncodeWebhookEvent(e)) == Some(e)
  {
    var f := EncodeWebhookEvent(e).fields;
    assert f["event"] == JStr(e.event) && f["data"] == JObj(e.data);
  }

  /** Decoding keeps the two declared members and drops the rest: encoding
      a decoded envelope gives the input restricted to `event` and `data`. */
  lemma WebhookEventProjects(v: Json)
    requires DecodeWebhookEvent(v).Some?
    ensures EncodeWebhookEvent(DecodeWebhookEvent(v).value)
         == JObj(map["event" := v.fields["event"], "data" := v.fields["data"]])
  {
  }
}
