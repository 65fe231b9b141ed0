/**
 * The lead intake endpoint (app/api/lead/route.js): header and field
 * sanitising, client IP derivation, and the decision `POST` makes for one
 * request. `POST` is a pure function of the parsed body, the headers, the
 * webhook configuration, the webhook's delivery outcome and the clock.
 */
module LeadRoute {
  import opened Wrappers
  import opened Json
  import opened Strings
  import opened Email

  /** The longest string `sanitize` lets through. */
  const MaxFieldLength: nat := 2000

  /** Request headers by lower-case name; an absent name is a header the request does not carry. */
  type Headers = map<string, string>

  /** `headers.get(name)`: the header's text, or `null`. */
  function Header(headers: Headers, name: string): Value
  {
    if name in headers then Str(headers[name]) else Null
  }

  /** `headers.get(name) || ""`. */
  function HeaderText(headers: Headers, name: string): string
  {
    if name in headers then headers[name] else ""
  }

  function Min(a: int, b: int): int
  {
    if a <= b then a else b
  }

  /** `getIp`: the first `x-forwarded-for` entry, trimmed; else `x-real-ip`; else empty. */
  function GetIp(headers: Headers): string
  {
    var forwarded := HeaderText(headers, "x-forwarded-for");
    if forwarded != "" then Trim(FirstSegment(forwarded, ','))
    else HeaderText(headers, "x-real-ip")
  }

  /**
   * `sanitize`: a non-string becomes the empty string; a string is cut to its
   * first `MaxFieldLength` characters (`substring(0, 2000)`).
   */
  function Sanitize(input: Value): (r: string)
    ensures |r| <= MaxFieldLength
    ensures !input.Str? ==> r == ""
    ensures input.Str? ==> |r| == Min(|input.s|, MaxFieldLength) && r == input.s[..|r|]
  {
    if !input.Str? then ""
    else if |input.s| <= MaxFieldLength then input.s
    else input.s[..MaxFieldLength]
  }

  /** `sanitize(body[key] || "")`, the way every string field of the body is read. */
  function BodyField(body: Value, key: string): string
    requires !Nullish(body)
  {
    Sanitize(Or(Prop(body, key), Str("")))
  }

  /** The error codes of the response body. */
  datatype ErrorCode = BadRequest | FirstNameRequired | EmailInvalid | ConsentRequired
  {
    /** The code as the response body spells it. */
    function Code(): string
    {
      match this
      case BadRequest => "bad_request"
      case FirstNameRequired => "firstName_required"
      case EmailInvalid => "email_invalid"
      case ConsentRequired => "consent_required"
    }
  }

  /** The HTTP response: its status and the `ok` and `error` members of its JSON body. */
  datatype Response = Response(status: int, ok: bool, error: Option<ErrorCode>)

  /** What the webhook `fetch` does when it is attempted: it resolves (whatever the status) or it rejects. */
  datatype Delivery = Delivered | Failed

  /** The normalized lead record built for an accepted submission. */
  datatype Lead = Lead(
    firstName: string,
    email: string,
    phone: string,
    consent: bool,
    utmSource: string,
    utmMedium: string,
    utmCampaign: string,
    utmTerm: string,
    utmContent: string,
    ref: string,
    ip: string,
    userAgent: string,
    ts: string)

  /** What one POST produces: the response, the lead it built, and whether a webhook POST was attempted. */
  datatype Handled = Handled(response: Response, lead: Option<Lead>, webhookCalled: bool)

  const Accepted: Response := Response(200, true, None)

  function Rejection(code: ErrorCode): Handled
  {
    Handled(Response(400, false, Some(code)), None, false)
  }

  /**
   * The ordered checks of `POST` on a parsed body: the error code of the first
   * one that fails, or `None` when all pass.
   */
  function Refusal(b: Value): Option<ErrorCode>
    requires !Nullish(b)
  {
    var firstName := BodyField(b, "firstName");
    var email := BodyField(b, "email");
    var consent := Truthy(Prop(b, "consent"));
    if firstName == "" then Some(FirstNameRequired)
    else if email == "" || !IsValidEmail(email) then Some(EmailInvalid)
    else if !consent then Some(ConsentRequired)
    else None
  }

  /** The lead record `POST` builds from an accepted body, the request headers and the clock. */
  function BuildLead(b: Value, headers: Headers, now: string): Lead
    requires !Nullish(b)
  {
    var referer := Sanitize(Or(Or(Header(headers, "referer"), Prop(b, "ref")), Str("")));
    Lead(
      BodyField(b, "firstName"), BodyField(b, "email"), BodyField(b, "phone"),
      Truthy(Prop(b, "consent")),
      BodyField(b, "utm_source"), BodyField(b, "utm_medium"), BodyField(b, "utm_campaign"),
      BodyField(b, "utm_term"), BodyField(b, "utm_content"),
      referer, GetIp(headers), HeaderText(headers, "user-agent"), now)
  }

  /**
   * `POST`. `webhookUrl` is `LEAD_WEBHOOK_URL` ("" when unset), `delivery` what
   * the webhook call does if it is made, `now` the ISO timestamp of the clock.
   * An unparseable body, and a `null` body whose first property read throws,
   * reach the catch-all `bad_request` answer.
   */
  function Post(body: Body, headers: Headers, webhookUrl: string, delivery: Delivery, now: string): (h: Handled)
    ensures h.response.ok <==> h.lead.Some?
    ensures h.response.ok <==> h.response.error.None?
    ensures h.response.status == if h.response.ok then 200 else 400
    ensures h.webhookCalled <==> h.lead.Some? && webhookUrl != ""
  {
    if body.Unparseable? || Nullish(body.value) then Rejection(BadRequest)
    else
      match Refusal(body.value)
      case Some(code) => Rejection(code)
      // The webhook call's outcome is caught and only logged.
      case None => Handled(Accepted, Some(BuildLead(body.value, headers, now)), webhookUrl != "")
  }

  // ---------------------------------------------------------------------------
  // sanitize

  /** A string no longer than the cap passes through unchanged. */
  lemma SanitizeKeepsShort(s: string)
    requires |s| <= MaxFieldLength
    ensures Sanitize(Str(s)) == s
  {
  }

  /** Sanitising what `sanitize` returned changes nothing. */
  lemma SanitizeIdempotent(v: Value)
    ensures Sanitize(Str(Sanitize(v))) == Sanitize(v)
  {
  }

  /** The `|| ""` before `sanitize` makes no difference: a field is its sanitised property. */
  lemma BodyFieldIsSanitizedProperty(body: Value, key: string)
    requires !Nullish(body)
    ensures BodyField(body, key) == Sanitize(Prop(body, key))
  {
  }

  /** A field reads as empty exactly when the property is not a non-empty string. */
  lemma BodyFieldEmptyIff(body: Value, key: string)
    requires !Nullish(body)
    ensures BodyField(body, key) == "" <==> !(Prop(body, key).Str? && Prop(body, key).s != "")
  {
  }

  // ---------------------------------------------------------------------------
  // getIp

  /**
   * With a non-empty `x-forwarded-for`, the IP is the trimmed text before its
   * first comma (all of it when there is none), and setting, changing or
   * removing `x-real-ip` does not change it.
   */
  lemma GetIpUsesForwardedFor(headers: Headers)
    requires "x-forwarded-for" in headers && headers["x-forwarded-for"] != ""
    ensures var forwarded := headers["x-forwarded-for"];
      var first := FirstSegment(forwarded, ',');
      && ',' !in first
      && (first == forwarded || forwarded[|first|] == ',')
      && GetIp(headers) == Trim(first)
    ensures forall m: Headers :: m - {"x-real-ip"} == headers - {"x-real-ip"} ==> GetIp(m) == GetIp(headers)
    ensures GetIp(headers - {"x-real-ip"}) == GetIp(headers)
  {
    var without := headers - {"x-real-ip"};
    assert "x-forwarded-for" in without && without["x-forwarded-for"] == headers["x-forwarded-for"];
    forall m: Headers | m - {"x-real-ip"} == without
      ensures GetIp(m) == GetIp(headers)
    {
      assert (m - {"x-real-ip"})["x-forwarded-for"] == m["x-forwarded-for"];
    }
  }

  /** Without a non-empty `x-forwarded-for`, the IP is `x-real-ip`, or empty when that is absent. */
  lemma GetIpFallsBack(headers: Headers)
    requires "x-forwarded-for" !in headers || headers["x-forwarded-for"] == ""
    ensures "x-real-ip" in headers ==> GetIp(headers) == headers["x-real-ip"]
    ensures "x-real-ip" !in headers ==> GetIp(headers) == ""
  {
  }

  // ---------------------------------------------------------------------------
  // POST: the order of the checks

  /** A body that is not JSON, or is `null`, gets `bad_request`, and nothing else does. */
  lemma PostBadRequestIff(body: Body, headers: Headers, webhookUrl: string, delivery: Delivery, now: string)
    ensures Post(body, headers, webhookUrl, delivery, now).response.error == Some(BadRequest)
        <==> body.Unparseable? || Nullish(body.value)
    ensures body.Unparseable? || Nullish(body.value) ==>
      Post(body, headers, webhookUrl, delivery, now).response == Response(400, false, Some(BadRequest))
    ensures body.Unparseable? || Nullish(body.value) ==>
      Post(body, headers, webhookUrl, delivery, now).response.error.value.Code() == "bad_request"
  {
  }

  /** The four error strings of the response body are distinct: each names exactly one refusal. */
  lemma ErrorCodesDistinct(a: ErrorCode, b: ErrorCode)
    ensures a.Code() == b.Code() <==> a == b
  {
  }

  /**
   * A body that is JSON but not an object (an array, a string, a number or a
   * boolean) reads every property as `undefined`, so it fails the first check.
   */
  lemma PostRefusesNonObjectBody(b: Value, headers: Headers, webhookUrl: string, delivery: Delivery, now: string)
    requires !Nullish(b) && !b.Obj?
    ensures Post(Parsed(b), headers, webhookUrl, delivery, now).response == Response(400, false, Some(FirstNameRequired))
  {
  }

  /** A `firstName` that is not a non-empty string is refused first, whatever the email and consent. */
  lemma PostChecksFirstNameFirst(b: Value, headers: Headers, webhookUrl: string, delivery: Delivery, now: string)
    requires !Nullish(b)
    requires !(Prop(b, "firstName").Str? && Prop(b, "firstName").s != "")
    ensures Post(Parsed(b), headers, webhookUrl, delivery, now).response == Response(400, false, Some(FirstNameRequired))
    ensures Post(Parsed(b), headers, webhookUrl, delivery, now).response.error.value.Code() == "firstName_required"
  {
    BodyFieldEmptyIff(b, "firstName");
  }

  /** With a first name present, an email the pattern refuses (the empty one included) gets `email_invalid`. */
  lemma PostChecksEmailSecond(b: Value, headers: Headers, webhookUrl: string, delivery: Delivery, now: string)
    requires !Nullish(b)
    requires Prop(b, "firstName").Str? && Prop(b, "firstName").s != ""
    requires !IsValidEmail(Sanitize(Prop(b, "email")))
    ensures Post(Parsed(b), headers, webhookUrl, delivery, now).response == Response(400, false, Some(EmailInvalid))
    ensures Post(Parsed(b), headers, webhookUrl, delivery, now).response.error.value.Code() == "email_invalid"
  {
    BodyFieldEmptyIff(b, "firstName");
    BodyFieldIsSanitizedProperty(b, "email");
  }

  /** With the name and email accepted, falsy consent gets `consent_required`. */
  lemma PostChecksConsentThird(b: Value, headers: Headers, webhookUrl: string, delivery: Delivery, now: string)
    requires !Nullish(b)
    requires Prop(b, "firstName").Str? && Prop(b, "firstName").s != ""
    requires IsValidEmail(Sanitize(Prop(b, "email")))
    requires !Truthy(Prop(b, "consent"))
    ensures Post(Parsed(b), headers, webhookUrl, delivery, now).response == Response(400, false, Some(ConsentRequired))
    ensures Post(Parsed(b), headers, webhookUrl, delivery, now).response.error.value.Code() == "consent_required"
  {
    BodyFieldEmptyIff(b, "firstName");
    BodyFieldIsSanitizedProperty(b, "email");
  }

  /** A parsed body is accepted, with `{ok: true}` and status 200, exactly when all three checks pass. */
  lemma PostAcceptsIff(b: Value, headers: Headers, webhookUrl: string, delivery: Delivery, now: string)
    requires !Nullish(b)
    ensures var r := Post(Parsed(b), headers, webhookUrl, delivery, now).response;
      (r == Accepted) <==>
        && Prop(b, "firstName").Str? && Prop(b, "firstName").s != ""
        && IsValidEmail(Sanitize(Prop(b, "email")))
        && Truthy(Prop(b, "consent"))
  {
    BodyFieldEmptyIff(b, "firstName");
    BodyFieldIsSanitizedProperty(b, "email");
  }

  /** The name check is on the untrimmed value: a first name of spaces only is accepted. */
  lemma PostAcceptsBlankFirstName(b: Value, headers: Headers, webhookUrl: string, delivery: Delivery, now: string)
    requires !Nullish(b)
    requires Prop(b, "firstName").Str? && Prop(b, "firstName").s != "" && AllWhitespace(Prop(b, "firstName").s)
    requires IsValidEmail(Sanitize(Prop(b, "email"))) && Truthy(Prop(b, "consent"))
    ensures Post(Parsed(b), headers, webhookUrl, delivery, now).response == Accepted
  {
    PostAcceptsIff(b, headers, webhookUrl, delivery, now);
  }

  /**
   * The email is not trimmed: leading white space is always refused, and so is
   * trailing white space within the first `MaxFieldLength` characters.
   */
  lemma PostRefusesPaddedEmail(b: Value, headers: Headers, webhookUrl: string, delivery: Delivery, now: string)
    requires !Nullish(b)
    requires Prop(b, "firstName").Str? && Prop(b, "firstName").s != ""
    requires Prop(b, "email").Str?
    requires var e := Prop(b, "email").s;
      e != [] && (IsWhitespace(e[0]) || (|e| <= MaxFieldLength && IsWhitespace(e[|e| - 1])))
    ensures Post(Parsed(b), headers, webhookUrl, delivery, now).response == Response(400, false, Some(EmailInvalid))
  {
    var e := Sanitize(Prop(b, "email"));
    if IsValidEmail(e) {
      ValidEmailHasNoWhitespace(e);
      assert false;
    }
    PostChecksEmailSecond(b, headers, webhookUrl, delivery, now);
  }

  // ---------------------------------------------------------------------------
  // POST: the lead record and the webhook

  /** The lead record's fields: capped, read from the sanitised body, `ref` from the header first. */
  lemma BuiltLeadFields(b: Value, headers: Headers, now: string)
    requires !Nullish(b)
    ensures var lead := BuildLead(b, headers, now);
      && |lead.firstName| <= MaxFieldLength && |lead.email| <= MaxFieldLength && |lead.phone| <= MaxFieldLength
      && |lead.utmSource| <= MaxFieldLength && |lead.utmMedium| <= MaxFieldLength
      && |lead.utmCampaign| <= MaxFieldLength && |lead.utmTerm| <= MaxFieldLength
      && |lead.utmContent| <= MaxFieldLength && |lead.ref| <= MaxFieldLength
      && lead.firstName == Sanitize(Prop(b, "firstName"))
      && lead.email == Sanitize(Prop(b, "email"))
      && lead.phone == Sanitize(Prop(b, "phone"))
      && lead.utmSource == Sanitize(Prop(b, "utm_source"))
      && lead.utmMedium == Sanitize(Prop(b, "utm_medium"))
      && lead.utmCampaign == Sanitize(Prop(b, "utm_campaign"))
      && lead.utmTerm == Sanitize(Prop(b, "utm_term"))
      && lead.utmContent == Sanitize(Prop(b, "utm_content"))
      && lead.ref == (if HeaderText(headers, "referer") != "" then Sanitize(Str(headers["referer"])) else Sanitize(Prop(b, "ref")))
      && lead.ip == GetIp(headers)
      && lead.userAgent == HeaderText(headers, "user-agent")
      && lead.ts == now
  {
    BodyFieldIsSanitizedProperty(b, "firstName");
    BodyFieldIsSanitizedProperty(b, "email");
    BodyFieldIsSanitizedProperty(b, "phone");
    BodyFieldIsSanitizedProperty(b, "utm_source");
    BodyFieldIsSanitizedProperty(b, "utm_medium");
    BodyFieldIsSanitizedProperty(b, "utm_campaign");
    BodyFieldIsSanitizedProperty(b, "utm_term");
    BodyFieldIsSanitizedProperty(b, "utm_content");
  }

  /**
   * Every lead built comes from a parsed body that passed the checks: it has
   * consent, a non-empty first name and a valid email, and the fields of
   * `BuiltLeadFields`.
   */
  lemma LeadShape(body: Body, headers: Headers, webhookUrl: string, delivery: Delivery, now: string)
    requires Post(body, headers, webhookUrl, delivery, now).lead.Some?
    ensures body.Parsed? && !Nullish(body.value)
    ensures var lead := Post(body, headers, webhookUrl, delivery, now).lead.value;
      && lead == BuildLead(body.value, headers, now)
      && lead.consent
      && lead.firstName != ""
      && IsValidEmail(lead.email)
  {
  }

  /**
   * The response depends on the body alone: not on the headers, the clock,
   * whether a webhook is configured, nor whether the webhook call succeeds.
   */
  lemma ResponseDependsOnBodyOnly(body: Body,
                                  headers: Headers, webhookUrl: string, delivery: Delivery, now: string,
                                  headers': Headers, webhookUrl': string, delivery': Delivery, now': string)
    ensures Post(body, headers, webhookUrl, delivery, now).response
         == Post(body, headers', webhookUrl', delivery', now').response
  {
  }

  /** The lead built does not depend on the webhook's configuration or fate. */
  lemma LeadIgnoresWebhook(body: Body, headers: Headers, now: string,
                           webhookUrl: string, delivery: Delivery, webhookUrl': string, delivery': Delivery)
    ensures Post(body, headers, webhookUrl, delivery, now).lead
         == Post(body, headers, webhookUrl', delivery', now).lead
  {
  }

  // ---------------------------------------------------------------------------
  // Worked examples

  /** `1.2.3.4, 5.6.7.8` in `x-forwarded-for` gives `1.2.3.4`, whatever `x-real-ip` says. */
  lemma GetIpFromForwardedExample()
    ensures GetIp(map["x-forwarded-for" := "1.2.3.4, 5.6.7.8", "x-real-ip" := "9.9.9.9"]) == "1.2.3.4"
  {
    var headers := map["x-forwarded-for" := "1.2.3.4, 5.6.7.8", "x-real-ip" := "9.9.9.9"];
    assert HeaderText(headers, "x-forwarded-for") == "1.2.3.4, 5.6.7.8";
    ForwardedExampleSegment();
    ForwardedExampleTrim();
  }

  /** The example's first entry has no surrounding white space, so `trim` keeps it. */
  lemma ForwardedExampleTrim()
    ensures Trim("1.2.3.4") == "1.2.3.4"
  {
    TrimOfTrimmed("1.2.3.4");
  }

  /** The text before the first comma of the example header. */
  lemma ForwardedExampleSegment()
    ensures FirstSegment("1.2.3.4, 5.6.7.8", ',') == "1.2.3.4"
  {
    var first, rest := "1.2.3.4", ", 5.6.7.8";
    assert first + rest == "1.2.3.4, 5.6.7.8";
    assert ',' !in first;
    FirstSegmentOfConcat(first, rest, ',');
  }

  /** The first segment of `a + b`, when `a` has no separator and `b` starts with one, is `a`. */
  lemma FirstSegmentOfConcat(a: string, b: string, sep: char)
    requires sep !in a && b != [] && b[0] == sep
    ensures FirstSegment(a + b, sep) == a
  {
    assert (a + b)[|a|] == sep;
  }

  /** `sam@example.com` is an address the pattern accepts. */
  lemma SampleAddressIsValid()
    ensures IsValidEmail("sam@example.com")
  {
    var s := "sam@example.com";
    assert s[..3] == "sam" && s[4..11] == "example" && s[12..] == "com";
    MatchedEmailIsValid(s, 3, 11);
  }

  /** A body with the given name, email and consent. */
  function SampleBody(firstName: string, email: string, consent: bool): (b: Value)
    ensures !Nullish(b)
    ensures Prop(b, "firstName") == Str(firstName) && Prop(b, "email") == Str(email)
    ensures Prop(b, "consent") == Bool(consent)
  {
    Obj(map["firstName" := Str(firstName), "email" := Str(email), "consent" := Bool(consent)])
  }

  /** The sample submission with a name, a valid address and consent is accepted. */
  lemma PostAcceptsSample(headers: Headers, webhookUrl: string, delivery: Delivery, now: string)
    ensures Post(Parsed(SampleBody("Sam", "sam@example.com", true)), headers, webhookUrl, delivery, now).response
         == Accepted
  {
    SampleAddressIsValid();
    PostAcceptsIff(SampleBody("Sam", "sam@example.com", true), headers, webhookUrl, delivery, now);
  }

  /** The sample submission without a name is refused with `firstName_required`. */
  lemma PostRefusesNamelessSample(headers: Headers, webhookUrl: string, delivery: Delivery, now: string)
    ensures Post(Parsed(SampleBody("", "sam@example.com", true)), headers, webhookUrl, delivery, now).response
         == Response(400, false, Some(FirstNameRequired))
  {
    PostChecksFirstNameFirst(SampleBody("", "sam@example.com", true), headers, webhookUrl, delivery, now);
  }

  /** The sample submission with `not-an-email` is refused with `email_invalid`. */
  lemma PostRefusesMalformedSample(headers: Headers, webhookUrl: string, delivery: Delivery, now: string)
    ensures Post(Parsed(SampleBody("Sam", "not-an-email", true)), headers, webhookUrl, delivery, now).response
         == Response(400, false, Some(EmailInvalid))
  {
    assert '@' !in "not-an-email";
    PostChecksEmailSecond(SampleBody("Sam", "not-an-email", true), headers, webhookUrl, delivery, now);
  }

  /** The sample submission without consent is refused with `consent_required`. */
  lemma PostRefusesUnconsentedSample(headers: Headers, webhookUrl: string, delivery: Delivery, now: string)
    ensures Post(Parsed(SampleBody("Sam", "sam@example.com", false)), headers, webhookUrl, delivery, now).response
         == Response(400, false, Some(ConsentRequired))
  {
    SampleAddressIsValid();
    PostChecksConsentThird(SampleBody("Sam", "sam@example.com", false), headers, webhookUrl, delivery, now);
  }
}
