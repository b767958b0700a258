/** The two-step donation wizard of app/page.tsx: step 1 picks a plan, step 2
    collects the donor's details, and "donate" posts the initialize request.
    React state updates become pure transitions over `Portal`. */
module Wizard {
  import opened Wrappers
  import opened Text
  import opened Schemas
  import Phone

  const PlanRequired := "Kies asseblief 'n donasiebedrag"
  const EmailRequired := "E-pos word vereis"
  const EmailInvalid := "Voorsien asseblief 'n geldige e-posadres"
  const EmailTooLong := "E-posadres is te lank"
  const EmailDotAtEdge := "E-posadres mag nie begin of eindig met 'n punt nie"
  const EmailDoubleDot := "E-posadres mag nie opeenvolgende punte hê nie"
  const EmailLocalTooLong := "E-posadres gebruikernaam is te lank"
  const EmailBadDomain := "Voorsien asseblief 'n geldige domein"
  const EmailBadTld := "Voorsien asseblief 'n geldige domein uitbreiding"
  const FirstNameRequired := "Voornaam word vereis"
  const LastNameRequired := "Van word vereis"

  const MaxEmailLength := 254
  const MaxLocalLength := 64

  // ---------------------------------------------------------------------
  // validateEmail

  /** The part before the first '@' (`split('@')[0]`). */
  function LocalPart(t: string): string
  {
    Split(t, '@')[0]
  }

  /** The part after the first '@' (`split('@')[1]`), undefined without '@'. */
  function DomainPart(t: string): Option<string>
  {
    var parts := Split(t, '@');
    if |parts| > 1 then Some(parts[1]) else None
  }

  /** The last dot-separated piece of a domain. */
  function Tld(domain: string): string
  {
    var labels := Split(domain, '.');
    labels[|labels| - 1]
  }

  /** `validateEmail`: trims, then checks the trimmed address. */
  function ValidateEmail(email: string): (r: Option<string>)
    ensures Trim(email) == "" ==> r == Some(EmailRequired)
    ensures r.None? ==> EmailPattern(Trim(email)) && |Trim(email)| <= MaxEmailLength
  {
    ValidateTrimmed(Trim(email))
  }

  /** The checks of `validateEmail` on the trimmed address, in order; the
      first that fails gives the message. */
  function ValidateTrimmed(t: string): Option<string>
  {
    if t == "" then Some(EmailRequired)
    else if !EmailPattern(t) then Some(EmailInvalid)
    else if |t| > MaxEmailLength then Some(EmailTooLong)
    else if StartsWith(t, '.') || EndsWith(t, '.') then Some(EmailDotAtEdge)
    else if IncludesPair(t, '.', '.') then Some(EmailDoubleDot)
    else if |LocalPart(t)| > MaxLocalLength then Some(EmailLocalTooLong)
    else if DomainPart(t).None? || |DomainPart(t).value| < 4 then Some(EmailBadDomain)
    else if |Tld(DomainPart(t).value)| < 2 then Some(EmailBadTld)
    else None
  }

  /** One check of an ordered validation list. */
  datatype Check = Check(fails: bool, message: string)

  /** The message of the first failing check, if any. */
  function FirstFailure(checks: seq<Check>): (r: Option<string>)
    ensures r.None? <==> forall k :: 0 <= k < |checks| ==> !checks[k].fails
    ensures r.Some? ==> exists k :: 0 <= k < |checks| && checks[k].fails
                          && r.value == checks[k].message
                          && forall j :: 0 <= j < k ==> !checks[j].fails
  {
    if |checks| == 0 then None
    else if checks[0].fails then Some(checks[0].message)
    else
      var r := FirstFailure(checks[1..]);
      if r.Some? then
        var k :| 0 <= k < |checks[1..]| && checks[1..][k].fails && r.value == checks[1..][k].message
                 && forall j :: 0 <= j < k ==> !checks[1..][j].fails;
        assert checks[k + 1] == checks[1..][k];
        r
      else r
  }

  lemma FirstFailureStep(checks: seq<Check>, k: int)
    requires 0 <= k < |checks|
    ensures FirstFailure(checks[k..]) ==
      if checks[k].fails then Some(checks[k].message) else FirstFailure(checks[k + 1..])
  {
    assert checks[k..][1..] == checks[k + 1..];
  }

  /** The e-mail checks as a list, in the order the validator applies them,
      on the trimmed address `t`. Each check is stated on its own, without
      assuming the ones before it passed (a missing domain counts as empty). */
  function EmailChecks(t: string): seq<Check>
  {
    var domain := DomainPart(t);
    [ Check(|t| == 0, EmailRequired),
      Check(!EmailPattern(t), EmailInvalid),
      Check(|t| > MaxEmailLength, EmailTooLong),
      Check(StartsWith(t, '.') || EndsWith(t, '.'), EmailDotAtEdge),
      Check(IncludesPair(t, '.', '.'), EmailDoubleDot),
      Check(|LocalPart(t)| > MaxLocalLength, EmailLocalTooLong),
      Check(domain.None? || |domain.value| < 4, EmailBadDomain),
      Check(|Tld(domain.GetOr(""))| < 2, EmailBadTld) ]
  }

  /** `validateEmail` reports the first failing check of the ordered list,
      and accepts exactly when none fails. */
  lemma ValidateEmailIsFirstFailure(email: string)
    ensures ValidateEmail(email) == FirstFailure(EmailChecks(Trim(email)))
  {
    var t := Trim(email);
    TrimmedIsFirstFailure(t);
  }

  lemma TrimmedIsFirstFailure(t: string)
    ensures ValidateTrimmed(t) == FirstFailure(EmailChecks(t))
  {
    var cs := EmailChecks(t);
    assert cs[0..] == cs && cs[8..] == [];
    FirstFailureStep(cs, 7); FirstFailureStep(cs, 6); FirstFailureStep(cs, 5); FirstFailureStep(cs, 4);
    FirstFailureStep(cs, 3); FirstFailureStep(cs, 2); FirstFailureStep(cs, 1); FirstFailureStep(cs, 0);
  }

  /** The e-mail is accepted exactly when every check passes. */
  lemma ValidateEmailAccepts(email: string)
    ensures ValidateEmail(email).None? <==>
      var t := Trim(email);
      && EmailPattern(t)
      && |t| <= MaxEmailLength
      && !StartsWith(t, '.')
      && !IncludesPair(t, '.', '.')
      && |LocalPart(t)| <= MaxLocalLength
      && |Split(t, '@')[1]| >= 4
      && |Tld(Split(t, '@')[1])| >= 2
  {
    TrimmedAccepts(Trim(email));
  }

  lemma TrimmedAccepts(t: string)
    ensures ValidateTrimmed(t).None? <==>
      && EmailPattern(t)
      && |t| <= MaxEmailLength
      && !StartsWith(t, '.')
      && !IncludesPair(t, '.', '.')
      && |LocalPart(t)| <= MaxLocalLength
      && |Split(t, '@')[1]| >= 4
      && |Tld(Split(t, '@')[1])| >= 2
  {
    if EmailPattern(t) {
      EmailPatternFacts(t);
      assert DomainPart(t) == Some(Split(t, '@')[1]);
      assert t != "" && !EndsWith(t, '.');
    }
  }

  /** After the pattern has matched, the address cannot end with '.', the
      domain is always there, and its last label is never empty: those guards
      of the validator never fire. */
  lemma ValidateEmailDeadGuards(email: string)
    requires EmailPattern(Trim(email))
    ensures !EndsWith(Trim(email), '.')
    ensures DomainPart(Trim(email)).Some?
    ensures |Tld(DomainPart(Trim(email)).value)| >= 1
    ensures ValidateEmail(email) == Some(EmailDotAtEdge) ==> StartsWith(Trim(email), '.')
  {
    TrimmedDeadGuards(Trim(email));
  }

  lemma TrimmedDeadGuards(t: string)
    requires EmailPattern(t)
    ensures !EndsWith(t, '.')
    ensures DomainPart(t).Some?
    ensures |Tld(DomainPart(t).value)| >= 1
    ensures ValidateTrimmed(t) == Some(EmailDotAtEdge) ==> StartsWith(t, '.')
  {
    assert !EndsWith(t, '.') by {
      EmailPatternFacts(t);
    }
    assert DomainPart(t).Some? && |Tld(DomainPart(t).value)| >= 1 by {
      EmailDomainFacts(t);
    }
  }

  /** An accepted address matches the request schema's pattern and is its
      own trim, so the server accepts it unchanged. */
  lemma AcceptedEmailMatchesSchema(email: string)
    ensures ValidateEmail(email).None? ==> EmailPattern(Trim(email))
    ensures Trim(Trim(email)) == Trim(email)
  {
    if ValidateEmail(email).None? {
      AcceptedTrimmedMatches(Trim(email));
    }
    TrimIdempotent(email);
  }

  lemma AcceptedTrimmedMatches(t: string)
    requires ValidateTrimmed(t).None?
    ensures EmailPattern(t)
  {
  }

  /** An address over 254 characters that otherwise matches is too long. */
  lemma LongEmailRejected(email: string)
    requires EmailPattern(Trim(email)) && |Trim(email)| > MaxEmailLength
    ensures ValidateEmail(email) == Some(EmailTooLong)
  {
    EmailPatternFacts(Trim(email));
  }

  // ---------------------------------------------------------------------
  // The wizard state

  datatype DonorInfo = DonorInfo(email: string, firstName: string, lastName: string, phone: string)

  type ErrorMap = map<string, string>

  datatype Portal = Portal(step: int, selected: Option<DonationPlan>, donor: DonorInfo, errors: ErrorMap)

  const Initial := Portal(1, None, DonorInfo("", "", "", ""), map[])

  /** `validateStep1`: the verdict and the error map it installs. */
  function ValidateStep1(selected: Option<DonationPlan>): (r: (bool, ErrorMap))
    ensures r.0 <==> selected.Some?
    ensures r.0 ==> r.1 == map[]
    ensures !r.0 ==> r.1.Keys == {"plan"} && r.1["plan"] == PlanRequired
  {
    if selected.None? then (false, map["plan" := PlanRequired]) else (true, map[])
  }

  /** Records `message` under `key` when a check failed. */
  function AddError(errs: ErrorMap, key: string, message: Option<string>): (r: ErrorMap)
    ensures key in r <==> key in errs || message.Some?
    ensures message.Some? ==> r[key] == message.value
    ensures forall k :: k != key ==> (k in r <==> k in errs)
    ensures forall k :: k != key && k in errs ==> r[k] == errs[k]
  {
    if message.Some? then errs[key := message.value] else errs
  }

  /** The "required after trim" check of the name fields. */
  function RequiredError(value: string, message: string): (r: Option<string>)
    ensures r.Some? <==> Trim(value) == ""
    ensures r.Some? ==> r.value == message
  {
    if Trim(value) == "" then Some(message) else None
  }

  /** The phone checks `validateStep2` writes out itself. */
  function Step2PhoneError(phone: string): Option<string>
  {
    var digits := DigitsOnly(phone);
    if |digits| == 0 then Some(Phone.PhoneRequired)
    else if digits[0] != '0' then Some(Phone.PhoneLeadingZero)
    else if |digits| < 10 then Some(Phone.PhoneTooShort)
    else None
  }

  /** The error map `validateStep2` installs; the step passes when it is empty. */
  function ValidateStep2(donor: DonorInfo): (errs: ErrorMap)
    ensures errs.Keys <= {"email", "firstName", "lastName", "phone"}
  {
    var e1 := AddError(map[], "email", ValidateEmail(donor.email));
    var e2 := AddError(e1, "firstName", RequiredError(donor.firstName, FirstNameRequired));
    var e3 := AddError(e2, "lastName", RequiredError(donor.lastName, LastNameRequired));
    AddError(e3, "phone", Step2PhoneError(donor.phone))
  }

  /** The form's own phone checks agree with the phone field's validator,
      message for message; neither bounds the digit count from above. */
  lemma Step2PhoneMatchesField(phone: string)
    ensures Step2PhoneError(phone) == Phone.ValidatePhoneNumber(phone)
  {
  }

  /** Each key of the step-2 error map is present exactly when its field is
      invalid, with that field's message; the phone entry is exactly the
      phone field's own validator verdict, so there is no upper bound on the
      digit count here either. */
  lemma ValidateStep2Fields(donor: DonorInfo)
    ensures var errs := ValidateStep2(donor);
      && ("email" in errs <==> ValidateEmail(donor.email).Some?)
      && ("email" in errs ==> errs["email"] == ValidateEmail(donor.email).value)
      && ("firstName" in errs <==> Trim(donor.firstName) == "")
      && ("lastName" in errs <==> Trim(donor.lastName) == "")
      && ("phone" in errs <==> Phone.ValidatePhoneNumber(donor.phone).Some?)
      && ("phone" in errs ==> errs["phone"] == Phone.ValidatePhoneNumber(donor.phone).value)
  {
    Step2PhoneMatchesField(donor.phone);
  }

  /** Step 2 passes exactly when every field is valid. */
  lemma ValidateStep2Passes(donor: DonorInfo)
    ensures ValidateStep2(donor) == map[] <==>
      && ValidateEmail(donor.email).None?
      && Trim(donor.firstName) != ""
      && Trim(donor.lastName) != ""
      && Phone.ValidatePhoneNumber(donor.phone).None?
  {
    ValidateStep2Fields(donor);
    var errs := ValidateStep2(donor);
    if errs != map[] {
      var k :| k in errs;
    }
  }

  /** `handleNextStep`. */
  function NextStep(s: Portal): (r: Portal)
    ensures r.selected == s.selected && r.donor == s.donor
    ensures s.step == 1 ==> (r.step == 2 <==> s.selected.Some?)
    ensures s.step == 1 && s.selected.None? ==> r.step == 1 && r.errors == map["plan" := PlanRequired]
    ensures s.step != 1 ==> r == s
  {
    if s.step == 1 then
      var (ok, errs) := ValidateStep1(s.selected);
      s.(step := if ok then 2 else s.step, errors := errs)
    else s
  }

  /** `handlePrevStep`. */
  function PrevStep(s: Portal): (r: Portal)
    ensures r.selected == s.selected && r.donor == s.donor && r.errors == s.errors
    ensures s.step == 2 ==> r.step == 1
    ensures s.step != 2 ==> r == s
  {
    if s.step == 2 then s.(step := 1) else s
  }

  /** `handlePlanSelect`. */
  function SelectPlan(s: Portal, plan: DonationPlan): (r: Portal)
    ensures r.selected == Some(plan) && r.step == s.step && r.donor == s.donor
    ensures "plan" in r.errors && r.errors["plan"] == ""
    ensures forall k :: k != "plan" ==> (k in r.errors <==> k in s.errors)
    ensures forall k :: k != "plan" && k in s.errors ==> r.errors[k] == s.errors[k]
  {
    s.(selected := Some(plan), errors := s.errors["plan" := ""])
  }

  const DonorErrorKeys: set<string> := {"email", "firstName", "lastName", "phone"}

  /** `handleDonorInfoChange`. */
  function ChangeDonorInfo(s: Portal, info: DonorInfo): (r: Portal)
    ensures r.donor == info && r.step == s.step && r.selected == s.selected
    ensures forall k :: k in DonorErrorKeys ==> k !in r.errors
    ensures forall k :: k !in DonorErrorKeys ==> (k in r.errors <==> k in s.errors)
    ensures forall k :: k !in DonorErrorKeys && k in s.errors ==> r.errors[k] == s.errors[k]
  {
    s.(donor := info, errors := s.errors - DonorErrorKeys)
  }

  /** What pressing "donate" does: the new state and the body it posts, if any. */
  datatype DonateOutcome = DonateOutcome(state: Portal, body: Option<CreateSubscriptionRequest>)

  /** The request-building part of `handleDonate`. */
  function Donate(s: Portal): (r: DonateOutcome)
    ensures r.state == s.(errors := ValidateStep2(s.donor))
    ensures r.body.Some? <==> ValidateStep2(s.donor) == map[] && s.selected.Some?
    ensures r.body.Some? ==> r.body.value == CreateSubscriptionRequest(
      Trim(s.donor.email), s.selected.value.id,
      Some(Trim(s.donor.firstName)), Some(Trim(s.donor.lastName)), Some(s.donor.phone))
  {
    var errs := ValidateStep2(s.donor);
    var s' := s.(errors := errs);
    if errs != map[] || s.selected.None? then DonateOutcome(s', None)
    else
      DonateOutcome(s', Some(CreateSubscriptionRequest(
        Trim(s.donor.email), s.selected.value.id,
        Some(Trim(s.donor.firstName)), Some(Trim(s.donor.lastName)), Some(s.donor.phone))))
  }

  /** Every body the browser posts passes the server's request schema
      unchanged: the browser's e-mail check implies the schema's pattern. */
  lemma DonateBodyPassesSchema(s: Portal)
    ensures Donate(s).body.Some? ==>
      && DecodeRequest(EncodeRequest(Donate(s).body.value)) == Some(Donate(s).body.value)
      && Phone.ValidatePhoneNumber(Donate(s).body.value.phone.value).None?
  {
    if Donate(s).body.Some? {
      ValidateStep2Passes(s.donor);
      RequestRoundTrip(Donate(s).body.value);
    }
  }

  /** "Donate" sends a body exactly when a plan is selected and every field
      is valid; the body carries the trimmed e-mail and names, the raw phone
      and the selected plan's id, and leaves the wizard on its step. */
  lemma DonateSendsOnlyValid(s: Portal)
    ensures Donate(s).body.Some? <==>
      && s.selected.Some?
      && ValidateEmail(s.donor.email).None?
      && Trim(s.donor.firstName) != ""
      && Trim(s.donor.lastName) != ""
      && Phone.ValidatePhoneNumber(s.donor.phone).None?
    ensures Donate(s).state.step == s.step && Donate(s).state.selected == s.selected
    ensures Donate(s).body.Some? ==>
      var b := Donate(s).body.value;
      && b.email == Trim(s.donor.email) && EmailPattern(b.email)
      && b.planId == s.selected.value.id
      && b.firstName == Some(Trim(s.donor.firstName)) && b.lastName == Some(Trim(s.donor.lastName))
      && b.phone == Some(s.donor.phone)
  {
    ValidateStep2Passes(s.donor);
    if Donate(s).body.Some? {
      AcceptedEmailMatchesSchema(s.donor.email);
    }
  }

  // ---------------------------------------------------------------------
  // The step invariant

  datatype Action = Next | Prev | Select(plan: DonationPlan) | Edit(info: DonorInfo) | Press

  function Apply(s: Portal, a: Action): Portal
  {
    match a
    case Next => NextStep(s)
    case Prev => PrevStep(s)
    case Select(p) => SelectPlan(s, p)
    case Edit(info) => ChangeDonorInfo(s, info)
    case Press => Donate(s).state
  }

  function Run(s: Portal, actions: seq<Action>): Portal
    decreases |actions|
  {
    if |actions| == 0 then s else Run(Apply(s, actions[0]), actions[1..])
  }

  /** Each action keeps the step in {1, 2}; "next" moves 1 to 2 exactly when a
      plan is selected; "back" always moves 2 to 1; nothing else moves it. */
  lemma StepTransitions(s: Portal, a: Action)
    requires s.step in {1, 2}
    ensures Apply(s, a).step in {1, 2}
    ensures a == Next ==> (Apply(s, a).step == 2 <==> s.step == 2 || s.selected.Some?)
    ensures a == Prev ==> Apply(s, a).step == 1
    ensures !a.Next? && !a.Prev? ==> Apply(s, a).step == s.step
  {
  }

  /** From the initial state, any sequence of actions keeps the step in {1, 2},
      and the wizard is on step 2 only if a plan has been selected. */
  lemma {:induction false} RunKeepsStep(s: Portal, actions: seq<Action>)
    requires s.step in {1, 2}
    requires s.step == 2 ==> s.selected.Some?
    ensures Run(s, actions).step in {1, 2}
    ensures Run(s, actions).step == 2 ==> Run(s, actions).selected.Some?
    decreases |actions|
  {
    if |actions| > 0 {
      StepTransitions(s, actions[0]);
      RunKeepsStep(Apply(s, actions[0]), actions[1..]);
    }
  }

  // ---------------------------------------------------------------------
  // Examples

  lemma SplitAt(a: string, sep: char, b: string)
    requires sep !in a
    ensures Split(a + [sep] + b, sep) == [a] + Split(b, sep)
  {
    assert a + [sep] + b == a + ([sep] + b);
    SplitPrefix(a, b, sep);
  }

  /** "a@b" is refused for its short domain. */
  lemma RejectsShortDomain()
    ensures ValidateEmail("a@b") == Some(EmailBadDomain)
  {
    var l, d := "a", "b";
    assert ValidLocalPart(l);
    DomainIntro([d]);
    assert Join([d], '.') == d;
    EmailPatternIntro(l, d);
    var t := l + "@" + d;
    assert t == "a@b";
    EmailPatternFacts(t);
    TrimNoWhitespace(t);
    assert !IncludesPair(t, '.', '.');
  }

  lemma DoubleDotShape()
    ensures "a..b@x.com" == "a..b" + "@" + Join(["x", "com"], '.')
  {
    assert Join(["x", "com"], '.') == "x.com";
  }

  /** A matching address of legal length that does not start with '.' but
      holds ".." gets the consecutive-dots message. */
  lemma DoubleDotRejected(t: string)
    requires EmailPattern(t) && |t| <= MaxEmailLength
    requires t[0] != '.' && IncludesPair(t, '.', '.')
    ensures ValidateTrimmed(t) == Some(EmailDoubleDot)
  {
    TrimmedDeadGuards(t);
  }

  /** The example address matches the pattern. */
  lemma DoubleDotMatches(t: string)
    requires t == "a..b" + "@" + Join(["x", "com"], '.')
    ensures EmailPattern(t)
  {
    var l := "a..b";
    var labels := ["x", "com"];
    assert ValidLocalPart(l);
    assert ValidLabel(labels[0]) && ValidLabel(labels[1]);
    DomainIntro(labels);
    EmailPatternIntro(l, Join(labels, '.'));
  }

  lemma DoubleDotTrimmed(t: string)
    requires t == "a..b" + "@" + Join(["x", "com"], '.')
    ensures ValidateTrimmed(t) == Some(EmailDoubleDot)
  {
    DoubleDotMatches(t);
    assert |t| == 10 && t[0] == 'a' && t[1] == '.' && t[2] == '.' by {
      assert Join(["x", "com"], '.') == "x.com";
    }
    DoubleDotRejected(t);
  }

  lemma RejectsDoubleDot()
    ensures ValidateEmail("a..b@x.com") == Some(EmailDoubleDot)
  {
    var t := "a..b@x.com";
    DoubleDotShape();
    DoubleDotTrimmed(t);
    EmailPatternFacts(t);
    TrimNoWhitespace(t);
  }

  lemma AcceptedShape()
    ensures "jan.marais@skenker.co.za"
         == Join(["jan", "marais"], '.') + "@" + Join(["skenker", "co", "za"], '.')
  {
    assert Join(["jan", "marais"], '.') == "jan.marais";
    assert Join(["skenker", "co", "za"], '.') == "skenker.co.za";
  }

  lemma AcceptedParts(t: string)
    requires t == Join(["jan", "marais"], '.') + "@" + Join(["skenker", "co", "za"], '.')
    ensures EmailPattern(t)
    ensures Split(t, '@') == [Join(["jan", "marais"], '.'), Join(["skenker", "co", "za"], '.')]
  {
    var l := Join(["jan", "marais"], '.');
    assert l == "jan.marais";
    assert ValidLocalPart(l);
    var labels := ["skenker", "co", "za"];
    assert ValidLabel(labels[0]) && ValidLabel(labels[1]) && ValidLabel(labels[2]);
    DomainIntro(labels);
    EmailPatternIntro(l, Join(labels, '.'));
  }

  lemma AcceptedNoDoubleDot(t: string)
    requires t == Join(["jan", "marais"], '.') + "@" + Join(["skenker", "co", "za"], '.')
    ensures !IncludesPair(t, '.', '.')
  {
    var names := ["jan", "marais"];
    var l := Join(names, '.');
    var d := Join(["skenker", "co", "za"], '.');
    assert !IncludesPair(l, '.', '.') by {
      forall i | 0 <= i < |l| - 1 ensures !(l[i] == '.' && l[i + 1] == '.') {
        NoDoubleSeparator(names, '.', i);
      }
    }
    AcceptedParts(t);
    EmailDomainFacts(t);
    NoPairAcross(l, '@', d, '.', '.');
  }

  /** An address built from a local part and a domain that pass every
      individual check is accepted. */
  lemma ComposedAccepted(l: string, d: string)
    requires EmailPattern(l + "@" + d) && Split(l + "@" + d, '@') == [l, d]
    requires 0 < |l| <= MaxLocalLength && l[0] != '.'
    requires 4 <= |d| && |l| + 1 + |d| <= MaxEmailLength
    requires !IncludesPair(l + "@" + d, '.', '.')
    requires |Tld(d)| >= 2
    ensures ValidateTrimmed(l + "@" + d).None?
  {
    var t := l + "@" + d;
    assert t[0] == l[0];
    TrimmedAccepts(t);
  }

  lemma AcceptedTrimmed(t: string)
    requires t == Join(["jan", "marais"], '.') + "@" + Join(["skenker", "co", "za"], '.')
    ensures ValidateTrimmed(t).None?
  {
    var labels := ["skenker", "co", "za"];
    var l, d := Join(["jan", "marais"], '.'), Join(labels, '.');
    assert |l| == 10 && l[0] == 'j';
    assert |d| == 13;
    assert |Tld(d)| >= 2 by {
      assert ValidLabel(labels[0]) && ValidLabel(labels[1]) && ValidLabel(labels[2]);
      DomainIntro(labels);
      assert Tld(d) == labels[2];
    }
    AcceptedParts(t);
    AcceptedNoDoubleDot(t);
    ComposedAccepted(l, d);
  }

  /** "jan.marais@skenker.co.za" is accepted. */
  lemma AcceptsExample()
    ensures ValidateEmail("jan.marais@skenker.co.za").None?
  {
    var t := "jan.marais@skenker.co.za";
    AcceptedShape();
    AcceptedTrimmed(t);
    EmailPatternFacts(t);
    TrimNoWhitespace(t);
  }
}
