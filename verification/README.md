# Donation payment-intent pipeline, modelled in Dafny

This project models the payment pipeline of the Studenteplein donation portal. The portal is a Next.js application that takes recurring and one-off donations through the Paystack gateway. The model is made of pure functions over immutable datatypes; the gateway, the HMAC digest and the HTTP layer are inputs. It covers:

- **Plan catalog** (`Plans`): the 18 plans of `lib/donation-plans.ts` (six monthly, six annual, six one-off), with the environment overrides of the plan codes, and lookup by id and by plan code.
- **Donor input** (`Text`, `Schemas`, `Phone`, `Wizard`):
  - JavaScript `trim`, `split` and `replace(/\D/g, '')` on strings;
  - the request schema and its e-mail pattern;
  - the phone field's formatter and validator;
  - the browser's e-mail validator;
  - the two-step wizard's state transitions and the body "donate" posts.
- **Server routes** (`Gateway`, `Initialize`, `Verify`, `Manage`, `Webhook`):
  - `Gateway` holds what the routes share. A gateway call's outcome (`Call`) is accepted, refused, unreachable (`PaystackError`), or of the wrong shape (`ParseError`). An Effect pipeline ends in success, a tagged or untagged failure, or a defect: a `TypeError` thrown in the generator, which no handler catches and which becomes `Reply.Unhandled`.
  - Each route returns its HTTP reply together with what it sent to the gateway, so "no gateway call" is `sent == None`.
- **Browser callback** (`Callback`): the return page chooses the reference, classifies the verify route's answer, stores a projection of the transaction, and labels the frequency.

JSON is `Json.Json`. `Get` models `v?.k`, which never throws. `Read` models `v.k`, which throws on `null`. `Put` models `JSON.stringify` dropping a member whose value is `undefined`. `Truthy` is JavaScript truthiness.

## Model

| member | source | states |
|---|---|---|
| Errors.NewBadRequest | lib/errors.ts:1-4 | a `BadRequestError` carries tag "BadRequestError" and exactly the message it was built with |
| Errors.NewTransactionFailed | lib/errors.ts:6-16 | a `TransactionFailedError` has tag "TransactionFailedError", message "Transaction was not successful", and keeps `status` and `gateway_response` unchanged |
| Errors.TransactionFailedMessageConstant | lib/errors.ts:11-12 | the failed-transaction message does not depend on the constructor arguments |
| Errors.TagDeterminesKind | lib/errors.ts:1-21 | two errors share a `_tag` exactly when they are the same kind of error, so dispatch on the tag is unambiguous |
| Schemas.ParseInterval | lib/schemas.ts:8 | an interval literal is accepted exactly when it is "monthly", "annually" or "one-off", and it decodes to the interval of that name |
| Schemas.IntervalRoundTrip | lib/schemas.ts:8 | every interval's literal decodes back to that interval |
| Schemas.PlanRoundTrip | lib/schemas.ts:3-11 | any plan, written as JSON with absent optional fields omitted, decodes back to itself |
| Schemas.DecodePlanShape | lib/schemas.ts:3-11 | a decoded plan had the five required members and an allowed interval literal; `planCode` and `description` are absent exactly when their members were missing |
| Schemas.DecodePlanRejectsInterval | lib/schemas.ts:8 | any other interval string is refused |
| Schemas.EmailPatternFacts | lib/schemas.ts:14 | a matching address has exactly one '@', a non-empty local part, no whitespace, and ends in a letter or digit |
| Schemas.EmailDomainFacts | lib/schemas.ts:14 | the domain of a matching address is non-empty, has no "..", and its last label is non-empty |
| Schemas.EmailPatternIntro | lib/schemas.ts:14 | a valid local part, '@' and a valid domain always form a matching address that splits back into its two parts |
| Schemas.DomainIntro | lib/schemas.ts:14 | valid labels joined by dots form a valid domain that splits back into those labels |
| Schemas.DecodeRequest | lib/schemas.ts:13-19 | every decoded request's e-mail matches the pattern |
| Schemas.RequestRoundTrip | lib/schemas.ts:13-19 | a request survives encoding and decoding exactly when its e-mail matches the pattern |
| Schemas.DecodeRequestShape | lib/schemas.ts:13-19 | a decoded body had a string `email` matching the pattern and a string `planId`; each optional name or phone is absent exactly when its member was |
| Schemas.DecodeWebhookEvent | lib/schemas.ts:73-76 | an envelope decodes exactly when `event` is a string and `data` is an object, and then carries both unchanged |
| Schemas.WebhookEventRoundTrip | lib/schemas.ts:73-76 | every envelope, written as `{event, data}`, decodes back to itself |
| Schemas.WebhookEventProjects | lib/schemas.ts:73-76 | decoding keeps `event` and `data` unchanged and drops every other member of the envelope |
| Text.TrimIdempotent | app/page.tsx:161 | trimming twice is trimming once |
| Text.TrimNoWhitespace | app/page.tsx:161 | a string without whitespace is its own trim |
| Text.JoinSplit | app/page.tsx:187 | joining the pieces of a split with the same separator gives back the string |
| Text.SplitJoin | app/page.tsx:197 | splitting a join of separator-free pieces gives back the pieces |
| Text.DigitsOnlyAppend | components/ui/phone-input.tsx:13 | keeping the digits distributes over concatenation |
| Plans.EnvOr | lib/donation-plans.ts:10 | an override is used exactly when it is set and non-empty, otherwise the default; a non-empty default gives a non-empty code |
| Plans.FindById | lib/donation-plans.ts:174-176 | the lookup finds nothing exactly when no plan has that id, and otherwise returns the first plan with that id |
| Plans.FindByCode | lib/donation-plans.ts:170-172 | the lookup finds nothing exactly when no plan carries that code, and otherwise returns the first plan carrying it |
| Plans.CatalogLayout | lib/donation-plans.ts:3-168 | the catalog is the monthly, annual and one-off lists in that order, six each, with the ids in catalog order |
| Plans.CatalogInvariants | lib/donation-plans.ts:3-166 | each plan's interval matches its list, every currency is "ZAR", every amount is positive, every recurring plan has a non-empty code and no one-off plan has one |
| Plans.PlanIdsDistinct | lib/donation-plans.ts:3-166 | no two catalog plans share an id, whatever the environment |
| Plans.GetPlanById | lib/donation-plans.ts:174-176 | a plan found by id carries that id and is one of the catalog's plans |
| Plans.GetPlanByCode | lib/donation-plans.ts:170-172 | a plan found by code carries that code and is one of the catalog's plans |
| Plans.GetPlanByIdFindsPlan | lib/donation-plans.ts:174-176 | looking up any catalog plan by its id returns that plan |
| Plans.GetPlanByIdMissing | lib/donation-plans.ts:174-176 | an id outside the catalog's ids finds nothing |
| Plans.GetPlanByCodeRecurring | lib/donation-plans.ts:117-172 | lookup by code returns only a catalog plan carrying that code, never a one-off plan |
| Phone.FormatPhoneNumber | components/ui/phone-input.tsx:11-26 | the formatted value is at most 12 characters long and is empty exactly when the input has no digit; its content is stated by the two lemmas below |
| Phone.FormatKeepsLeadingDigits | components/ui/phone-input.tsx:11-26 | removing spaces from the formatted value, or keeping its digits, gives the first min(10, #digits) digits of the input |
| Phone.FormatLayout | components/ui/phone-input.tsx:19-25 | the formatted value has a space exactly after the third digit for 4-6 digits and after the third and sixth for more, digits elsewhere, and at most 12 characters |
| Phone.FormatIdempotent | components/ui/phone-input.tsx:11-26 | formatting a formatted value changes nothing |
| Phone.ValidatePhoneNumber | components/ui/phone-input.tsx:28-44 | a number is accepted exactly when it has at least ten digits and the first is '0' |
| Phone.ValidatePhoneNumberOrder | components/ui/phone-input.tsx:28-44 | the message is "required" exactly when there are no digits, "must start with 0" exactly when the first digit is not '0', and "must be 10 digits" exactly when a leading-zero number is shorter than ten |
| Phone.HandleChange | components/ui/phone-input.tsx:62-74 | the parent receives every digit typed, in order and untruncated |
| Phone.HandleChangeAgrees | components/ui/phone-input.tsx:62-74 | the display holds the first ten emitted digits, and the field accepts exactly when at least ten digits were typed starting with '0' |
| Phone.HandleChangeOverflow | components/ui/phone-input.tsx:62-74 | more than ten typed digits reach the parent untruncated while the display and the validation see only ten |
| Phone.PhoneAcceptedExample | components/ui/phone-input.tsx:11-44 | "0828322321" is shown as "082 832 2321" and accepted |
| Phone.PhoneRejectedExamples | components/ui/phone-input.tsx:35-41 | "1234567890" lacks the leading zero and "08312" is too short |
| Wizard.ValidateStep1 | app/page.tsx:150-157 | step 1 passes exactly when a plan is selected; it then clears all errors, and otherwise leaves only the `plan` error |
| Wizard.ValidateEmail | app/page.tsx:159-204 | an address that trims to "" gets "required"; an accepted address trims to one that matches the pattern and is at most 254 characters long |
| Wizard.ValidateEmailIsFirstFailure | app/page.tsx:159-204 | the e-mail validator reports the first failing check of the ordered list: empty, pattern, length over 254, dot at either end, "..", local part over 64, domain under 4, top-level domain under 2 |
| Wizard.ValidateEmailAccepts | app/page.tsx:159-204 | an address is accepted exactly when its trim matches the pattern, is at most 254 long, does not start with '.', has no "..", a local part of at most 64, a domain of at least 4, and a top-level domain of at least 2 |
| Wizard.ValidateEmailDeadGuards | app/page.tsx:179-200 | once the pattern matched, the address cannot end with '.', the domain is always present and its last label is never empty, so those guards never fire |
| Wizard.AcceptedEmailMatchesSchema | app/page.tsx:159-204 | an address the browser accepts trims to an address the server's pattern accepts |
| Wizard.LongEmailRejected | app/page.tsx:175-177 | a matching address over 254 characters is refused as too long |
| Wizard.RejectsShortDomain | app/page.tsx:192-194 | "a@b" is refused for its short domain |
| Wizard.RejectsDoubleDot | app/page.tsx:183-185 | "a..b@x.com" is refused for its consecutive dots |
| Wizard.AcceptsExample | app/page.tsx:159-204 | "jan.marais@skenker.co.za" is accepted |
| Wizard.ValidateStep2 | app/page.tsx:206-234 | the errors of step 2 are only ever about email, firstName, lastName and phone |
| Wizard.ValidateStep2Fields | app/page.tsx:206-234 | each error key is present exactly when its field is invalid, with that field's message; the phone entry is the phone field's own verdict, with no upper bound on the digit count |
| Wizard.Step2PhoneMatchesField | app/page.tsx:222-230 | the form's phone checks agree with the phone field's validator, message for message |
| Wizard.ValidateStep2Passes | app/page.tsx:206-234 | step 2 passes exactly when every field is valid |
| Wizard.SelectPlan | app/page.tsx:248-251 | selecting a plan records it, sets the `plan` error to "", and leaves every other error key as it was |
| Wizard.ChangeDonorInfo | app/page.tsx:253-264 | editing the donor removes exactly the email, firstName, lastName and phone errors, keeping `plan` and `submit` |
| Wizard.Donate | app/page.tsx:266-283 | "donate" installs the step-2 errors, sends a body exactly when they are empty and a plan is selected, and that body is the trimmed e-mail and names, the plan id and the raw phone |
| Wizard.DonateSendsOnlyValid | app/page.tsx:266-283 | "donate" sends a body exactly when a plan is selected and every field is valid; the body holds the trimmed e-mail and names, the raw phone and the plan's id |
| Wizard.DonateBodyPassesSchema | app/page.tsx:277-283 | every body the browser sends decodes on the server to itself |
| Wizard.NextStep | app/page.tsx:236-240 | from step 1 the wizard moves to step 2 exactly when a plan is selected, and otherwise stays with only the `plan` error; on step 2 nothing changes; the plan and donor are never touched |
| Wizard.PrevStep | app/page.tsx:242-246 | from step 2 the wizard returns to step 1; on step 1 nothing changes; the plan, donor and errors are never touched |
| Wizard.StepTransitions | app/page.tsx:236-246 | each action keeps the step in {1, 2}; "next" reaches 2 exactly when a plan is selected; "back" always returns to 1 |
| Wizard.RunKeepsStep | app/page.tsx:236-264 | along any sequence of actions, the step stays in {1, 2} and is 2 only with a plan selected |
| Initialize.Serve | app/api/subscription/initialize/route.ts:12-69 | the route always answers JSON; it calls the gateway only for a body the schema accepts whose plan id it found, sending that plan's id; it answers 2xx only when the gateway accepted that call |
| Initialize.Resolve | app/api/subscription/initialize/route.ts:18-67 | after decoding, nothing throws; the gateway is called only for a plan found by the request's id, and success needs the gateway's acceptance |
| Initialize.Post | app/api/subscription/initialize/route.ts:12-69 | over the catalog, the gateway is only ever sent a request whose plan id `getPlanById` finds |
| Initialize.PlanField | app/api/subscription/initialize/route.ts:35 | the request has a plan code exactly when the plan is not one-off and its code is truthy, and then it is that code |
| Initialize.ServeRejectsBadBody | app/api/subscription/initialize/route.ts:14-67 | a body the schema refuses gives 400 "Invalid input" and an unreadable body gives 500; neither calls the gateway |
| Initialize.ServeUnknownPlan | app/api/subscription/initialize/route.ts:18-63 | an id no plan carries gives 400 "Invalid plan" without a gateway call |
| Initialize.PostUnknownPlan | app/api/subscription/initialize/route.ts:18-63 | for the catalog, any id outside its ids gives 400 "Invalid plan" without a gateway call |
| Initialize.EmailRequiredUnreachable | app/api/subscription/initialize/route.ts:26-29 | the route's own "Email is required" failure never happens; that reply can only repeat a gateway refusal carrying those words |
| Initialize.ServeSendsRequest | app/api/subscription/initialize/route.ts:32-48 | for a known plan, the gateway receives the request built from the decoded body and the plan, with the decoded e-mail unchanged |
| Initialize.RequestContents | app/api/subscription/initialize/route.ts:32-45 | the request carries the amount times 100, the plan code only for a recurring plan with a code, the callback URL, and the metadata with trimmed names and the raw phone |
| Initialize.RequestJsonKeys | app/api/subscription/initialize/route.ts:32-45 | the serialised request has exactly email, amount, callback_url and metadata, plus plan when present |
| Initialize.MetadataJsonKeys | app/api/subscription/initialize/route.ts:37-44 | the serialised metadata has plan_id, plan_name and plan_interval, plus each name and the phone only when given |
| Initialize.OneOffHasNoPlanField | app/api/subscription/initialize/route.ts:35 | a catalog plan is sent with a plan code exactly when it is not one-off |
| Initialize.ServeGatewayOutcomes | app/api/subscription/initialize/route.ts:48-67 | a refusal gives 400 with the gateway's message or "Failed to initialize transaction"; acceptance gives exactly access_code, authorization_url and reference; a wrong-shaped reply gives 400 "Invalid input"; an unreachable gateway gives 500 |
| Initialize.ServeStatuses | app/api/subscription/initialize/route.ts:58-69 | every reply is 200, 400 or 500, and it is 200 exactly when the gateway was called and accepted |
| Verify.SafeTransaction | app/api/subscription/verify/route.ts:10-26 | the projection is an object with only allow-listed members, always holding `customer` and `metadata`; the full shape is in Verify.SafeTransactionShape |
| Verify.Pick | app/api/subscription/verify/route.ts:19-24 | a nested projection such as `{ email: customer?.email }` holds at most the one named member, and holds it, unchanged, exactly when the outer object has it |
| Verify.SafeTransactionShape | app/api/subscription/verify/route.ts:10-26 | the projection keeps amount, currency, reference and plan when present, only the customer's e-mail and only the plan interval, and no other member at any level |
| Verify.SafeTransactionIdempotent | app/api/subscription/verify/route.ts:10-26 | projecting a projection changes nothing |
| Verify.DecodedProjection | app/api/subscription/verify/route.ts:10-26 | for a decoded transaction, the projection holds its amount, currency, reference and customer e-mail, the plan exactly when the record has one, and the interval exactly when the metadata has one |
| Verify.HandleGet | app/api/subscription/verify/route.ts:28-67 | GET sends the query's reference unchanged, never throws past its handlers, and answers 2xx only for a transaction the gateway returned with status "success" |
| Verify.HandlePost | app/api/subscription/verify/route.ts:69-99 | POST answers 2xx only after the gateway accepted the body's reference it was sent, and then with the projection of the returned transaction; it throws past its handlers exactly for a `null` body |
| Verify.MissingReference | app/api/subscription/verify/route.ts:31-77 | without a reference both handlers give 400 "Transaction reference is required" and call nothing; a `null` body makes POST throw past its handlers |
| Verify.GatewayFailures | app/api/subscription/verify/route.ts:38-97 | a refusal gives 400 with the message or "Failed to verify transaction"; a wrong-shaped or unreachable reply gives 500, on both handlers |
| Verify.GetRejectsUnsuccessful | app/api/subscription/verify/route.ts:42-60 | GET refuses any status other than "success" with exactly error, status and gateway_response, defaulting to 'unknown' and 'No gateway response' |
| Verify.GetSucceeds | app/api/subscription/verify/route.ts:37-53 | GET succeeds exactly when the gateway accepted and the status is "success", and then answers with the projection |
| Verify.PostIgnoresStatus | app/api/subscription/verify/route.ts:78-86 | POST answers any accepted lookup with the projection, even one GET refuses |
| Verify.ReferenceForwarded | app/api/subscription/verify/route.ts:31-78 | the reference sent to the gateway is the one received |
| Manage.HandlePost | app/api/subscription/manage/route.ts:9-33 | POST answers 2xx only after the gateway accepted the body's subscription code it was sent, and then with exactly `{link}`; it throws past its handlers exactly for a `null` body |
| Manage.HandleGet | app/api/subscription/manage/route.ts:35-58 | GET sends the query's code unchanged, never throws past its handlers, and answers 2xx only with the gateway's accepted data, unchanged |
| Manage.MissingCode | app/api/subscription/manage/route.ts:11-43 | without a subscription code both handlers give 400 "Subscription code is required" and call nothing; a `null` body makes POST throw past its handlers |
| Manage.PostOutcomes | app/api/subscription/manage/route.ts:18-32 | POST forwards the code; acceptance gives exactly `{link}`, a refusal 400 with the message or "Failed to generate management link", anything else 500 |
| Manage.GetOutcomes | app/api/subscription/manage/route.ts:44-58 | GET forwards the code; acceptance gives the subscription unchanged, a refusal 400 with the message or "Failed to fetch subscription", anything else 500 |
| Webhook.Dispatch | app/api/webhooks/paystack/route.ts:33-57 | the handler chosen for an event is the one whose name is that event |
| Webhook.Run | app/api/webhooks/paystack/route.ts:17-69 | a handler runs only for an acknowledged delivery, and a delivery is acknowledged only when the body was read, the header was present, the key was set and the digest matched |
| Webhook.DispatchExact | app/api/webhooks/paystack/route.ts:33-57 | each handler is reached by exactly its own event name; any other name reaches none |
| Webhook.DispatchRoundTrip | app/api/webhooks/paystack/route.ts:33-57 | every handler's event name dispatches to that handler |
| Webhook.CheckOrder | app/api/webhooks/paystack/route.ts:19-64 | the first failing check decides: missing header, then wrong signature, then invalid JSON, then a bad envelope, each a 400 with its message and no handler run |
| Webhook.SignatureBeforeParse | app/api/webhooks/paystack/route.ts:11-30 | the signature is checked on the raw text before parsing: with a wrong signature the parser makes no difference |
| Webhook.AcknowledgedIffAuthentic | app/api/webhooks/paystack/route.ts:24-58 | a delivery is answered `{status: "success"}` exactly when it passes every check, whatever its event, and only then does a handler run |
| Webhook.OtherFailures | app/api/webhooks/paystack/route.ts:12-69 | an unreadable body gives 500 "Webhook processing failed"; an unset key makes the digest throw past the handlers |
| Callback.ChooseReference | app/donation/callback/page.tsx:17-22 | the reference is `reference` when non-empty, else `trxref` when non-empty, else none |
| Callback.Visit | app/donation/callback/page.tsx:16-28 | the page requests only a non-empty `reference` or `trxref`, and without one shows "Geen transaksieverwysing gevind nie" |
| Callback.Classify | app/donation/callback/page.tsx:32-69 | the page leaves the loading state on every answer, shows success only for an ok JSON answer and then with one of the two success messages, and a failed fetch shows the runtime's message |
| Callback.StoredData | app/donation/callback/page.tsx:48-59 | the stored data is an object with only allow-listed members, a customer object holding at most the e-mail and a metadata object holding at most the interval |
| Callback.VisitReference | app/donation/callback/page.tsx:16-28 | without a usable reference the page shows "Geen transaksieverwysing gevind nie" and requests nothing; otherwise it requests that reference |
| Callback.RuntimeFailures | app/donation/callback/page.tsx:32-69 | a failed fetch or a body that is not JSON shows the runtime's message |
| Callback.NotOkClassified | app/donation/callback/page.tsx:36-69 | a response that is not ok shows its truthy `error`, or "Transaction verification failed" |
| Callback.SuccessClassified | app/donation/callback/page.tsx:40-61 | a success answer gives the recurring message exactly when the plan is truthy, and stores the verify route's projection of the transaction |
| Callback.MissingTransactionThrows | app/donation/callback/page.tsx:40-69 | a success answer without a transaction shows the runtime's message |
| Callback.StoredMatchesProjection | app/donation/callback/page.tsx:48-59 | the page's stored data equals the verify route's projection of the same transaction |
| Callback.OtherPayloadClassified | app/donation/callback/page.tsx:62-65 | any other ok answer shows its truthy `gateway_response`, or "Betaling was nie suksesvol nie" |
| Callback.ErrorReplyShown | app/donation/callback/page.tsx:36-38 | an error reply `{error: m}` shows m, or the default when m is empty |
| Callback.ServerSuccessShown | app/donation/callback/page.tsx:33-61 | a successful GET reply of the verify route is shown as a success storing exactly what the server projected, recurring exactly when the plan code is non-empty |
| Callback.ServerFailureShown | app/donation/callback/page.tsx:33-38 | every other GET reply shows the route's `error` text, never the page's gateway-response branch; an accepted but unsuccessful transaction shows "Transaction was not successful" |
| Callback.FrequencyText | app/donation/callback/page.tsx:98-105 | there is a label exactly for a truthy plan, and it is always "Maandeliks", "Jaarliks" or "Herhalend" |
| Callback.FrequencyLabels | app/donation/callback/page.tsx:98-105 | for a subscription recorded with one of the three intervals, the label is "Maandeliks" for monthly, "Jaarliks" for annually and "Herhalend" for one-off |
| Callback.FrequencyDefault | app/donation/callback/page.tsx:100-103 | for a subscription whose interval is missing, not a string, or any string other than "monthly" and "annually", the label is "Herhalend" |
| Callback.NoFrequencyForSingle | app/donation/callback/page.tsx:99 | a donation without a truthy plan has no frequency label |

## Left out

- The gateway client (lib/paystack-service.ts) is not part of this model. Each call's result is the input `Gateway.Call`: accepted or refused with a message and decoded data, unreachable (`PaystackError`, no tag), or of the wrong shape (`ParseError`).
- The verify response schema of lib/paystack-service.ts declares no `gateway_response`, so Effect's decoder drops that member. `Verify.Transaction` keeps it as an optional field, so the route's use of it can be stated. In practice GET therefore always reports 'No gateway response'.
- HMAC-SHA-512 (RFC 2104) and `JSON.parse` are function parameters of `Webhook.Run`. Nothing is assumed about them beyond being functions.
- Environment variables are parameters: the secret key (`Option<string>`), the application URL, and the plan-code overrides (`Plans.Env`).
- `request.json()` and `request.text()` rejecting is modelled as a `None` body, which reaches `catchAll`.
- Logging, the webhook handler bodies (which only log), and the console output of every route are left out.
- `formatAmount` and the callback's amount display are left out: they use `Intl.NumberFormat` and floating-point division.
- Scroll and focus handling in app/page.tsx (lines 50-130) is left out: it is DOM, timer and animation-frame behaviour.
- Rendering components are left out (the donor form, the plan grid and cards, the project showcase), as is every JSX tree.
- `middleware.ts` and the Next.js and deployment configuration are left out.
- `handleDonate`'s handling of the initialize reply (redirect or `submit` error) is left out; the model stops at the body it posts.
- The callback page's catch-all text "Iets het verkeerd gegaan" is left out: every exception it can catch is an `Error`, so the model shows `RuntimeMessage` instead.
- The callback puts the reference into the query string without URL encoding; the model passes it to the verify route unchanged.
- Callback.NoticeOf: a non-string `error` or `gateway_response` is shown as the JSON value (`Shows`), not through JavaScript's string conversion.
- Numbers are integers: every amount in the system is a whole number, and JSON numbers are `int`.
- The e-mail pattern and JavaScript `trim` are modelled over characters: no Unicode normalisation, and `trim`'s whitespace set is written out in `Text.IsWhitespace`.
- Verify.DecodedProjection: states the customer projection's keys and e-mail and the keys of the whole projection, not that the metadata projection has no other key; that part is in Verify.SafeTransactionShape.
