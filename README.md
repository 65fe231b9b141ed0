# Lead capture pipeline: a Dafny model

This project models the lead-submission pipeline of a single-page marketing
site. It has two parts:

- the **lead intake endpoint** (`app/api/lead/route.js`): `POST` reads a JSON
  body, sanitises its fields, runs three ordered checks (first name, email,
  consent), derives the client IP, builds a lead record, optionally posts it to
  a webhook, and answers `{ok: true}` / 200 or `{ok: false, error}` / 400;
- the **lead form** (`app/page.js`): the form state, the attribution capture
  run when the page mounts, the client-side `validate`, and the `onSubmit`
  handler's updates of `submitting`, `error` and `success`.

The model is written in Dafny's terms:

| file | module | models |
|---|---|---|
| `wrappers.dfy` | `Wrappers` | `Option` |
| `json.dfy` | `Json` | JavaScript values of a parsed body, `Boolean(x)`, `x \|\| y`, property reads |
| `strings.dfy` | `Strings` | the ECMAScript white-space set, `trim`, `indexOf`, `split(",")[0]` |
| `email.dfy` | `Email` | the email pattern `^[^\s@]+@[^\s@]+\.[^\s@]+$`, shared by both files |
| `lead_route.dfy` | `LeadRoute` | `getIp`, `sanitize`, and `POST` as a pure function |
| `lead_page.dfy` | `LeadPage` | `validate`, the attribution merge, and the form state as a class |
| `client_server.dfy` | `ClientServer` | what the form sends, how it reads the answer, and when both sides agree |

`POST` becomes `LeadRoute.Post(body, headers, webhookUrl, delivery, now)`.
The body is either a parsed value or `Unparseable`. The headers are a map.
`webhookUrl` is `LEAD_WEBHOOK_URL`, with "" meaning unset. `delivery` says
whether the webhook call resolves or rejects. `now` is the clock's ISO
timestamp. The result holds the response, the lead built (if any), and
whether a webhook POST was attempted (it may still have been rejected). `onSubmit` becomes the class
`LeadPage.FormController`:

- `BeginSubmit` covers validation up to sending the request;
- `FinishSubmit` covers everything after the request;
- `Submit` runs both.

The network's answer is an abstract `RequestOutcome`.

The email pattern is written as a scanner, `Email.IsValidEmail`: it splits at
the first `@`, then checks the character classes and the inner dot. Two
lemmas prove it equal to two independent descriptions. One is the meaning of
the regular expression (`A@B.C` with non-empty runs of `[^\s@]`). The other
is the three-part description: no white space and one `@`, a non-empty local
part, a domain with an inner dot. `IsWhitespace` is the exact set of
ECMAScript WhiteSpace and LineTerminator code points. That one set is what
`\s` matches and what `trim` removes.

## Behaviour worth knowing

- The endpoint checks the untrimmed first name, so a first name of white
  space only is accepted (`LeadRoute.PostAcceptsBlankFirstName`).
- Nothing stops a new submission after a success. A later failed attempt
  sets `error` and leaves `success` true.
- `validate` has four messages, because an empty email and a malformed one
  get different messages.

## Model

| member | source | states |
|---|---|---|
| `Json.Truthy` | app/api/lead/route.js:24 | `Boolean(v)`: false exactly for undefined, null, false, 0 and ""; its consequences for the checks are stated by `LeadRoute.PostChecksConsentThird` and `LeadRoute.PostAcceptsIff` |
| `Json.Or` | app/api/lead/route.js:21-23 | `a \|\| b`: the left operand when it is truthy, else the right one; `LeadRoute.BodyFieldIsSanitizedProperty` shows the `\|\| ""` never changes a field |
| `Json.Prop` | app/api/lead/route.js:21-24 | a property read: the object's own member for the key, else `undefined`; it requires a non-null value because reading a property of `null` throws, which `LeadRoute.PostBadRequestIff` turns into `bad_request`; `LeadRoute.PostRefusesNonObjectBody` shows that an array, string, number or boolean body reads every property as `undefined` and fails the first check |
| `Strings.IsWhitespace` | app/api/lead/route.js:15 | the ECMAScript WhiteSpace and LineTerminator code points: what `\s` matches in the pattern (here and at line 45 of `app/page.js`) and what `trim` removes; used by `Strings.TrimRemovesOnlyWhitespace`, `Strings.TrimEmptyIff` and `Email.IsValidEmailHasShape` |
| `LeadRoute.Header` | app/api/lead/route.js:39 | `headers.get(name)`: the header's text, or `null` when absent; it feeds the referer chain stated by `LeadRoute.BuiltLeadFields` |
| `LeadRoute.HeaderText` | app/api/lead/route.js:4-6 | `headers.get(name) \|\| ""`, used for `x-forwarded-for`, `x-real-ip` and `user-agent` (line 38); stated by `LeadRoute.GetIpUsesForwardedFor`, `LeadRoute.GetIpFallsBack` and `LeadRoute.BuiltLeadFields` |
| `LeadRoute.PostRefusesNonObjectBody` | app/api/lead/route.js:21-28 | a parsed body that is neither an object nor null reads every property as `undefined`, so it gets `firstName_required` / 400 |
| `LeadPage.Prefer` | app/page.js:32-37 | `incoming \|\| previous` on strings: the incoming value when non-empty, else the previous one; stated by `LeadPage.AttributeFields` |
| `LeadPage.Param` | app/page.js:29-36 | a query parameter's value, or "" when the URL does not carry it (so `params.x` is falsy); stated by `LeadPage.AttributeFields` |
| `Strings.IndexOf` | app/api/lead/route.js:5 | the position of the first occurrence of a character, or the length when there is none: the character is there and none occurs earlier |
| `Strings.TrimStart` | app/api/lead/route.js:5 | the first half of `trim()`; its meaning is stated by `Strings.TrimStartSuffix` |
| `Strings.TrimEnd` | app/api/lead/route.js:5 | the second half of `trim()`; its meaning is stated by `Strings.TrimEndPrefix` |
| `Email.IsValidEmail` | app/api/lead/route.js:14-16 | the pattern test shared by `isValidEmail` and line 45 of `app/page.js`, as a scanner; its meaning is stated by `Email.IsValidEmailMatchesPattern` and `Email.IsValidEmailHasShape` |
| `LeadRoute.GetIp` | app/api/lead/route.js:3-7 | `getIp`; its results are stated by `LeadRoute.GetIpUsesForwardedFor` and `LeadRoute.GetIpFallsBack` |
| `LeadRoute.BodyField` | app/api/lead/route.js:21-23 | `sanitize(body.x \|\| "")`; stated by `LeadRoute.BodyFieldIsSanitizedProperty` and `LeadRoute.BodyFieldEmptyIff` |
| `LeadRoute.Refusal` | app/api/lead/route.js:26-34 | the three ordered checks; their order and outcomes are stated by `LeadRoute.PostChecksFirstNameFirst`, `LeadRoute.PostChecksEmailSecond`, `LeadRoute.PostChecksConsentThird` and `LeadRoute.PostAcceptsIff` |
| `LeadRoute.BuildLead` | app/api/lead/route.js:36-59 | the lead record; its fields are stated by `LeadRoute.BuiltLeadFields` and `LeadRoute.LeadShape` |
| `LeadRoute.ErrorCodesDistinct` | app/api/lead/route.js:27-78 | the four error strings `bad_request`, `firstName_required`, `email_invalid` and `consent_required` are pairwise distinct, so the response's `error` names exactly one refusal; the check lemmas give the string each refusal carries |
| `LeadPage.Validate` | app/page.js:41-49 | `validate`; its messages and their order are stated by the `LeadPage.ValidateChecks…` lemmas, `LeadPage.ValidatePassesIff` and `LeadPage.ValidateReadsEntries` |
| `LeadPage.Attribute` | app/page.js:30-38 | the attribution merge; stated by `LeadPage.AttributeFields`, `LeadPage.AttributeIdempotent` and `LeadPage.AttributeKeepsValidation` |
| `ClientServer.OutcomeOf` | app/page.js:66-68 | how the form reads a response: a non-2xx status fails first, then an `ok` of false; stated against the endpoint by `ClientServer.OutcomeOfPost` |
| `Strings.FirstSegment` | app/api/lead/route.js:5 | `split(",")[0]`: the result holds no comma, and it is either the whole header or stops just before the first comma |
| `Strings.Trim` | app/api/lead/route.js:5 | `trim()` leaves a string with no white space at either end |
| `Strings.TrimStartSuffix` | app/page.js:42-43 | the first half of `trim()` keeps a suffix that does not start with white space, and removes only white space |
| `Strings.TrimEndPrefix` | app/page.js:42-43 | the second half of `trim()` keeps a prefix that does not end with white space, and removes only white space |
| `Strings.TrimRemovesOnlyWhitespace` | app/page.js:42-43 | what `trim()` leaves is a substring of the input, and everything it removes on either side is white space |
| `Strings.TrimEmptyIff` | app/page.js:42-44 | `s.trim()` is empty exactly when `s` is all white space |
| `Email.IsValidEmailMatchesPattern` | app/api/lead/route.js:14-16 | the scanner accepts exactly the strings `A@B.C` the regular expression matches, with A, B, C non-empty runs of `[^\s@]` |
| `Email.IsValidEmailHasShape` | app/api/lead/route.js:14-16 | the scanner accepts exactly the strings with no white space and one `@`, a non-empty part before it, and a `.` after it with text on both sides |
| `Email.ValidEmailHasNoWhitespace` | app/api/lead/route.js:15 | an accepted address contains no white space, so none at its ends |
| `LeadRoute.Sanitize` | app/api/lead/route.js:9-12 | a non-string gives ""; a string gives its prefix of length min(\|s\|, 2000); the result never exceeds 2000 characters |
| `LeadRoute.SanitizeKeepsShort` | app/api/lead/route.js:9-12 | `sanitize` returns a string of at most 2000 characters unchanged |
| `LeadRoute.SanitizeIdempotent` | app/api/lead/route.js:9-12 | sanitising a sanitised value changes nothing |
| `LeadRoute.BodyFieldIsSanitizedProperty` | app/api/lead/route.js:21-23 | `sanitize(body.x \|\| "")` equals `sanitize(body.x)`: the `\|\| ""` never changes the result |
| `LeadRoute.BodyFieldEmptyIff` | app/api/lead/route.js:21-26 | a field reads as empty exactly when the body property is not a non-empty string |
| `LeadRoute.GetIpUsesForwardedFor` | app/api/lead/route.js:4-5 | a non-empty `x-forwarded-for` gives the trimmed text before its first comma (all of it when it has none); two header maps that differ only in `x-real-ip` give the same IP, so setting, changing or removing that header does not change the result |
| `LeadRoute.GetIpFallsBack` | app/api/lead/route.js:6 | with no non-empty `x-forwarded-for`, the IP is `x-real-ip`, or "" when that header is absent |
| `LeadRoute.GetIpFromForwardedExample` | app/api/lead/route.js:3-7 | `x-forwarded-for: 1.2.3.4, 5.6.7.8` gives `1.2.3.4` even when `x-real-ip` is present |
| `LeadRoute.Post` | app/api/lead/route.js:18-80 | `ok` holds exactly when a lead is built and exactly when there is no error code; the status is 200 when `ok` holds and 400 otherwise; a webhook POST is attempted exactly when a lead is built and a webhook URL is set |
| `LeadRoute.PostBadRequestIff` | app/api/lead/route.js:77-78 | `bad_request` / 400 comes exactly from a body that does not parse (line 20) or whose first property read throws because it is null (line 21) |
| `LeadRoute.PostChecksFirstNameFirst` | app/api/lead/route.js:26-28 | a first name that is not a non-empty string gives `firstName_required` / 400, whatever the email and consent |
| `LeadRoute.PostChecksEmailSecond` | app/api/lead/route.js:29-31 | with a first name present, a sanitised email the pattern refuses (the empty one included) gives `email_invalid` / 400, whatever the consent |
| `LeadRoute.PostChecksConsentThird` | app/api/lead/route.js:32-34 | with name and email accepted, a falsy `consent` gives `consent_required` / 400 |
| `LeadRoute.PostAcceptsIff` | app/api/lead/route.js:26-76 | a parsed non-null body gets `{ok: true}` / 200 exactly when all three checks pass |
| `LeadRoute.PostAcceptsBlankFirstName` | app/api/lead/route.js:21-26 | the name check is on the untrimmed value: a first name of white space only is accepted |
| `LeadRoute.PostRefusesPaddedEmail` | app/api/lead/route.js:22-31 | the email is not trimmed: one with leading white space is always refused, and so is one with trailing white space within 2000 characters |
| `LeadRoute.BuiltLeadFields` | app/api/lead/route.js:36-59 | every lead field except `ip`, `userAgent` and `ts` is at most 2000 characters and is the sanitised body property; `ref` is the sanitised `referer` header when that is non-empty, else the sanitised `body.ref`; `ip` is `getIp`; `userAgent` is the raw header or ""; `ts` is the clock |
| `LeadRoute.LeadShape` | app/api/lead/route.js:36-59 | a lead is built only from a parsed non-null body, and every lead built has `consent` true, a non-empty first name and a valid email |
| `LeadRoute.ResponseDependsOnBodyOnly` | app/api/lead/route.js:61-76 | the response is the same whatever the headers and the clock, whether a webhook is set, and whether the webhook call succeeds or fails |
| `LeadRoute.LeadIgnoresWebhook` | app/api/lead/route.js:61-73 | the lead built is the same whatever the webhook configuration and outcome |
| `LeadRoute.PostAcceptsSample` | app/api/lead/route.js:18-76 | `{firstName: "Sam", email: "sam@example.com", consent: true}` gets `{ok: true}` / 200 |
| `LeadRoute.PostRefusesNamelessSample` | app/api/lead/route.js:26-28 | the same body with an empty first name gets `firstName_required` |
| `LeadRoute.PostRefusesMalformedSample` | app/api/lead/route.js:29-31 | the same body with email `not-an-email` gets `email_invalid` |
| `LeadRoute.PostRefusesUnconsentedSample` | app/api/lead/route.js:32-34 | the same body with `consent: false` gets `consent_required` |
| `LeadPage.ValidateChecksFirstNameFirst` | app/page.js:42 | a first name of white space only gives "Please enter your first name.", whatever the other fields are |
| `LeadPage.ValidateChecksEmailPresence` | app/page.js:43-44 | with a first name, an email of white space only gives "Please enter your email address." |
| `LeadPage.ValidateChecksEmailShape` | app/page.js:45-46 | with a first name and some email text, a trimmed email the pattern refuses gives "Please enter a valid email address." |
| `LeadPage.ValidateChecksConsentLast` | app/page.js:47 | with name and trimmed email accepted, missing consent gives "You must consent to be contacted." |
| `LeadPage.ValidatePassesIff` | app/page.js:41-49 | `validate` returns "" exactly when the name has non-space text, the trimmed email is valid and consent is given |
| `LeadPage.ValidateReadsEntries` | app/page.js:41-49 | `validate` depends only on the first name, the email and the consent box |
| `LeadPage.AttributeFields` | app/page.js:30-38 | each UTM field takes the incoming parameter when it is non-empty and keeps its previous value otherwise; `ref` does the same with the referrer; name, email, phone and consent are unchanged |
| `LeadPage.AttributeIdempotent` | app/page.js:30-38 | applying the merge twice with the same parameters gives the state that applying it once gives |
| `LeadPage.AttributeKeepsValidation` | app/page.js:30-38 | the merge never changes what `validate` returns |
| `LeadPage.FormController.constructor` | app/page.js:9-25 | the page starts with the empty form, not submitting, no error, no success, nothing sent and nothing scheduled |
| `LeadPage.FormController.CaptureAttribution` | app/page.js:27-39 | the mount effect replaces the form by the merge of the old form with the parameters and nothing else changes |
| `LeadPage.FormController.SetFirstName` | app/page.js:172 | typing replaces the first name only |
| `LeadPage.FormController.SetEmail` | app/page.js:178 | typing replaces the email only |
| `LeadPage.FormController.SetPhone` | app/page.js:183 | typing replaces the phone only |
| `LeadPage.FormController.SetConsent` | app/page.js:188 | the checkbox replaces consent only |
| `LeadPage.FormController.BeginSubmit` | app/page.js:52-65 | a request is sent exactly when `validate` returns ""; otherwise `error` is the message and `submitting` and the requests sent are unchanged; when sent, `error` is "", `submitting` is true and the form is appended to the requests sent |
| `LeadPage.FormController.FinishSubmit` | app/page.js:66-79 | afterwards `submitting` is false; on acceptance `success` is true, `error` is unchanged, and an 800 ms redirect to the offer is scheduled exactly when the offer URL is non-empty; otherwise `error` is "Something went wrong. Please try again." and `success` and the redirects are unchanged |
| `LeadPage.FormController.Submit` | app/page.js:51-80 | all of `onSubmit`: after a refused form as in `BeginSubmit`, with `success` and redirects unchanged; after every sent form `submitting` is false, with `error` "" and `success` true on acceptance and the generic message with `success` unchanged otherwise; the object invariant is kept throughout |
| `ClientServer.Payload` | app/page.js:61-65 | the sent body is an object, and its `firstName`, `email` and `consent` read back as the form's two strings and its boolean |
| `ClientServer.PayloadCarriesOtherFields` | app/page.js:61-65 | the phone, the five UTM fields and `ref` of the sent body also read back as the form's strings |
| `ClientServer.OutcomeOfPost` | app/page.js:66-68 | every refusal of the endpoint reaches the form as a non-2xx status, so any server error code shows the same generic message; an acceptance reads as success |
| `ClientServer.ClientValidImpliesServerAccepts` | app/page.js:41-49 | a form that `validate` lets through is accepted by the endpoint with `{ok: true}` / 200 if its email has no surrounding white space and is at most 2000 characters long; the first name needs no such condition |
| `ClientServer.BlankFirstNameSplitsVerdicts` | app/page.js:42 | a first name of one space is refused by the form but accepted by the endpoint |
| `ClientServer.PaddedEmailSplitsVerdicts` | app/page.js:43-46 | the email " a@b.c" is accepted by the form (it trims) but refused by the endpoint with `email_invalid`, so the no-white-space condition is needed |
| `ClientServer.LongEmailSplitsVerdicts` | app/api/lead/route.js:22-31 | a valid 2001-character email is accepted by the form, but the endpoint cuts it to 2000 characters and refuses it, so the length condition is needed |

## Left out

- `app/layout.js`: static metadata and markup, with no logic.
- Rendering, JSX, CSS and marketing copy of `app/page.js`. The four input
  handlers are kept as `SetFirstName`, `SetEmail`, `SetPhone` and
  `SetConsent`. Nothing models the submit button being disabled while
  `submitting` holds.
- Network I/O: the form's `fetch` and the endpoint's webhook `fetch`. The
  first becomes the `RequestOutcome` parameter. The second becomes
  `webhookUrl`, `delivery` and the `webhookCalled` flag. A webhook call that never
  settles is not modelled. A webhook answer with a non-2xx status counts as
  `Delivered`, because `fetch` does not reject on it.
- JSON parsing (`request.json()`, `res.json()`) and `JSON.stringify`. The
  endpoint takes an already-parsed value or `Unparseable`. `ClientServer.Payload`
  is the value the form's body parses back to.
- `console.log` and `console.warn`: they are observations only.
- The clock becomes the `now` parameter. `process.env` values become the
  `webhookUrl` and `offerUrl` parameters.
- `setTimeout` and the navigation itself. A scheduled redirect is recorded as
  `Redirect(url, 800)`. Its firing, and the lack of a cancel when the page
  goes away, are not modelled.
- `URL` and `searchParams` parsing and `document.referrer`. The merge takes
  the parameter map and the referrer string as inputs.
- `e.preventDefault()`, React's batching of state updates, and rendering
  between updates. The class shows the state after each of the two halves of
  the handler.
- HTTP header details. Header names are taken as already lower-cased.
  `Headers.get` is case-insensitive and joins repeated headers with ", ";
  neither is modelled. The `Content-Type` header of the response is not
  modelled.
- Strings are sequences of Dafny `char`s, which are Unicode scalar values,
  while JavaScript strings are sequences of UTF-16 code units. The 2000 cap
  here counts code points, whereas `substring(0, 2000)` counts code units.
  For text outside the Basic Multilingual Plane the model therefore keeps
  more than the code does, and it never splits a surrogate pair. The lone
  surrogates that `JSON.parse` can produce cannot be represented at all.
- JSON numbers are reals. `JSON.parse` never yields NaN. The ±Infinity it
  gives for an overflowing literal such as `1e400` has no real counterpart.
  It is truthy and not a string, so in this core any non-zero real behaves
  the same way.
- Property reads use keys that name no built-in property. `Json.Prop` gives
  `undefined` for every key an object does not own, and for every key of a
  non-object.
