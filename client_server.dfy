/**
 * How the form (app/page.js) and the endpoint (app/api/lead/route.js) fit
 * together: the body the form sends, how the form reads the endpoint's
 * answer, and when the form's verdict and the endpoint's verdict agree.
 */
module ClientServer {
  import opened Wrappers
  import opened Json
  import opened Strings
  import opened Email
  import opened LeadRoute
  import opened LeadPage

  /** `JSON.stringify(formData)` as the endpoint's `request.json()` reads it back. */
  function Payload(f: Form): (body: Value)
    ensures !Nullish(body)
    ensures Prop(body, "firstName") == Str(f.firstName)
    ensures Prop(body, "email") == Str(f.email)
    ensures Prop(body, "consent") == Bool(f.consent)
  {
    Obj(map[
      "firstName" := Str(f.firstName),
      "email" := Str(f.email),
      "phone" := Str(f.phone),
      "consent" := Bool(f.consent),
      "utm_source" := Str(f.utmSource),
      "utm_medium" := Str(f.utmMedium),
      "utm_campaign" := Str(f.utmCampaign),
      "utm_term" := Str(f.utmTerm),
      "utm_content" := Str(f.utmContent),
      "ref" := Str(f.ref)])
  }

  /** The other fields of the sent body read back as the form's values too. */
  lemma PayloadCarriesOtherFields(f: Form)
    ensures var body := Payload(f);
      && Prop(body, "phone") == Str(f.phone)
      && Prop(body, "utm_source") == Str(f.utmSource)
      && Prop(body, "utm_medium") == Str(f.utmMedium)
      && Prop(body, "utm_campaign") == Str(f.utmCampaign)
      && Prop(body, "utm_term") == Str(f.utmTerm)
      && Prop(body, "utm_content") == Str(f.utmContent)
      && Prop(body, "ref") == Str(f.ref)
  {
  }

  /** How the handler reads a response: `res.ok` (a 2xx status) first, then the body's `ok`. */
  function OutcomeOf(r: Response): RequestOutcome
  {
    if !(200 <= r.status < 300) then StatusNotOk
    else if !r.ok then BodyNotOk
    else RequestOutcome.Accepted
  }

  /**
   * Every refusal of the endpoint reaches the form as a non-2xx status, so
   * the form shows its one generic message whatever the error code was.
   */
  lemma OutcomeOfPost(body: Body, headers: Headers, webhookUrl: string, delivery: Delivery, now: string)
    ensures var r := Post(body, headers, webhookUrl, delivery, now).response;
      OutcomeOf(r) == if r.ok then RequestOutcome.Accepted else StatusNotOk
  {
  }

  /**
   * A form the page lets through is accepted by the endpoint, provided its
   * email has no surrounding white space (the endpoint does not trim) and fits
   * in `MaxFieldLength` characters (the endpoint truncates). The first name
   * needs no such proviso: a name with text after trimming is non-empty, and
   * truncation keeps it non-empty.
   */
  lemma {:induction false} ClientValidImpliesServerAccepts(
    f: Form, headers: Headers, webhookUrl: string, delivery: Delivery, now: string)
    requires Validate(f) == ""
    requires Trimmed(f.email) && |f.email| <= MaxFieldLength
    ensures Post(Parsed(Payload(f)), headers, webhookUrl, delivery, now).response == LeadRoute.Accepted
    ensures OutcomeOf(Post(Parsed(Payload(f)), headers, webhookUrl, delivery, now).response) == RequestOutcome.Accepted
  {
    ValidatePassesIff(f);
    TrimOfTrimmed(f.email);
    SanitizeKeepsShort(f.email);
    PostAcceptsIff(Payload(f), headers, webhookUrl, delivery, now);
  }

  /** The address `a@b.c`, which the pattern accepts. */
  lemma ShortAddressIsValid()
    ensures IsValidEmail("a@b.c")
  {
    var s := "a@b.c";
    assert s[2..3][0] == s[2] == 'b';
    assert s[..1] == ['a'] && s[2..3] == ['b'] && s[4..] == ['c'];
    MatchedEmailIsValid(s, 1, 3);
  }

  /** A first name of spaces: the page refuses it, the endpoint accepts it. */
  lemma BlankFirstNameSplitsVerdicts(headers: Headers, webhookUrl: string, delivery: Delivery, now: string)
    ensures var f := InitialForm.(firstName := " ", email := "a@b.c", consent := true);
      && Validate(f) == FirstNameMissing
      && Post(Parsed(Payload(f)), headers, webhookUrl, delivery, now).response == LeadRoute.Accepted
  {
    var f := InitialForm.(firstName := " ", email := "a@b.c", consent := true);
    ValidateChecksFirstNameFirst(f);
    ShortAddressIsValid();
    PostAcceptsIff(Payload(f), headers, webhookUrl, delivery, now);
  }

  /** Trimming ` a@b.c` gives `a@b.c`. */
  lemma TrimPaddedAddress()
    ensures Trim(" a@b.c") == "a@b.c"
  {
    assert TrimStart(" a@b.c") == TrimStart("a@b.c") == "a@b.c";
  }

  /** An email with a leading space: the page trims and accepts it, the endpoint refuses it. */
  lemma PaddedEmailSplitsVerdicts(headers: Headers, webhookUrl: string, delivery: Delivery, now: string)
    ensures var f := InitialForm.(firstName := "Sam", email := " a@b.c", consent := true);
      && Validate(f) == ""
      && Post(Parsed(Payload(f)), headers, webhookUrl, delivery, now).response == Response(400, false, Some(EmailInvalid))
  {
    var f := InitialForm.(firstName := "Sam", email := " a@b.c", consent := true);
    TrimPaddedAddress();
    ShortAddressIsValid();
    assert !IsWhitespace(f.firstName[0]);
    ValidatePassesIff(f);
    var b := Payload(f);
    assert Prop(b, "firstName") == Str("Sam") && Prop(b, "email") == Str(" a@b.c");
    PostRefusesPaddedEmail(b, headers, webhookUrl, delivery, now);
  }

  /** `a@bbb…b.c` with 1997 `b`s: 2001 characters, so the endpoint's cut drops the final `c`. */
  function LongAddress(): (s: string)
    ensures |s| == MaxFieldLength + 1
  {
    "a@" + seq(1997, _ => 'b') + ".c"
  }

  /** The page accepts the long address: it is `A@B.C` with single-letter `A` and `C`. */
  lemma LongAddressIsValid()
    ensures IsValidEmail(LongAddress()) && Trimmed(LongAddress())
  {
    var s := LongAddress();
    assert s[1] == '@' && s[1999] == '.';
    assert s[..1] == ['a'];
    assert s[2000..] == ['c'];
    assert IsAtom(s[2..1999]) by {
      forall k | 0 <= k < 1997 ensures s[2..1999][k] == 'b' {
        assert s[2..1999][k] == s[2 + k];
      }
    }
    MatchedEmailIsValid(s, 1, 1999);
  }

  /** Cut to `MaxFieldLength` characters, the long address ends in its dot and the pattern refuses it. */
  lemma TruncatedLongAddressIsInvalid()
    ensures !IsValidEmail(LongAddress()[..MaxFieldLength])
  {
    var t := LongAddress()[..MaxFieldLength];
    assert t[1] == '@' && t[0] == 'a';
    assert IndexOf(t, '@') == 1;
    var d := t[2..];
    assert |d| == 1998;
    forall k | 0 <= k < 1996 ensures d[1..1997][k] == 'b' {
      assert d[1..1997][k] == t[3 + k];
    }
    assert '.' !in d[1..1997];
  }

  /** An email over `MaxFieldLength` characters: the page accepts it, the endpoint refuses what is left after the cut. */
  lemma LongEmailSplitsVerdicts(headers: Headers, webhookUrl: string, delivery: Delivery, now: string)
    ensures var f := InitialForm.(firstName := "Sam", email := LongAddress(), consent := true);
      && Validate(f) == ""
      && Post(Parsed(Payload(f)), headers, webhookUrl, delivery, now).response == Response(400, false, Some(EmailInvalid))
  {
    var f := InitialForm.(firstName := "Sam", email := LongAddress(), consent := true);
    LongAddressIsValid();
    TrimOfTrimmed(f.email);
    assert !IsWhitespace(f.firstName[0]);
    ValidatePassesIff(f);
    var b := Payload(f);
    assert Prop(b, "firstName") == Str("Sam") && Prop(b, "email") == Str(LongAddress());
    TruncatedLongAddressIsInvalid();
    assert Sanitize(Prop(b, "email")) == LongAddress()[..MaxFieldLength];
    PostChecksEmailSecond(b, headers, webhookUrl, delivery, now);
  }
}
