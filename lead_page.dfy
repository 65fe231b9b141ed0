/**
 * The landing page's lead form (app/page.js): the form state, the client-side
 * validation, the capture of attribution parameters, and the submit handler's
 * updates of the `submitting`, `error` and `success` state.
 */
module LeadPage {
  import opened Strings
  import opened Email

  /** The `formData` state. */
  datatype Form = Form(
    firstName: string,
    email: string,
    phone: string,
    consent: bool,
    utmSource: string,
    utmMedium: string,
    utmCampaign: string,
    utmTerm: string,
    utmContent: string,
    ref: string)

  /** The state the page starts from. */
  const InitialForm: Form := Form("", "", "", false, "", "", "", "", "", "")

  const FirstNameMissing: string := "Please enter your first name."
  const EmailMissing: string := "Please enter your email address."
  const EmailMalformed: string := "Please enter a valid email address."
  const ConsentMissing: string := "You must consent to be contacted."
  /** The one message shown for every failed request, whatever the server's error code. */
  const SubmitFailed: string := "Something went wrong. Please try again."

  /** The delay, in milliseconds, before the page navigates to the offer after a success. */
  const RedirectDelayMs: nat := 800

  /** `validate()`: the message of the first failing check, or "" when the form may be sent. */
  function Validate(f: Form): string
  {
    if Trim(f.firstName) == "" then FirstNameMissing
    else
      var email := Trim(f.email);
      if email == "" then EmailMissing
      else if !IsValidEmail(email) then EmailMalformed
      else if !f.consent then ConsentMissing
      else ""
  }

  /** `incoming || previous` on two strings. */
  function Prefer(incoming: string, previous: string): string
  {
    if incoming != "" then incoming else previous
  }

  /** `params[key]`, with a missing parameter read as "" (both are falsy). */
  function Param(params: map<string, string>, key: string): string
  {
    if key in params then params[key] else ""
  }

  /**
   * The state update of the mount effect: each attribution field takes the
   * page's query parameter, and `ref` the document referrer, when that is
   * non-empty.
   */
  function Attribute(prev: Form, params: map<string, string>, referrer: string): Form
  {
    prev.(
      utmSource := Prefer(Param(params, "utm_source"), prev.utmSource),
      utmMedium := Prefer(Param(params, "utm_medium"), prev.utmMedium),
      utmCampaign := Prefer(Param(params, "utm_campaign"), prev.utmCampaign),
      utmTerm := Prefer(Param(params, "utm_term"), prev.utmTerm),
      utmContent := Prefer(Param(params, "utm_content"), prev.utmContent),
      ref := Prefer(referrer, prev.ref))
  }

  // ---------------------------------------------------------------------------
  // validate

  /** A first name of white space only is refused first, whatever the other fields hold. */
  lemma ValidateChecksFirstNameFirst(f: Form)
    requires AllWhitespace(f.firstName)
    ensures Validate(f) == FirstNameMissing
  {
    TrimEmptyIff(f.firstName);
  }

  /** With a first name, an email of white space only asks for the email. */
  lemma ValidateChecksEmailPresence(f: Form)
    requires !AllWhitespace(f.firstName)
    requires AllWhitespace(f.email)
    ensures Validate(f) == EmailMissing
  {
    TrimEmptyIff(f.firstName);
    TrimEmptyIff(f.email);
  }

  /** With a first name and some email text, a trimmed email the pattern refuses is reported as invalid. */
  lemma ValidateChecksEmailShape(f: Form)
    requires !AllWhitespace(f.firstName)
    requires !AllWhitespace(f.email)
    requires !IsValidEmail(Trim(f.email))
    ensures Validate(f) == EmailMalformed
  {
    TrimEmptyIff(f.firstName);
    TrimEmptyIff(f.email);
  }

  /** With name and email accepted, a missing consent is reported last. */
  lemma ValidateChecksConsentLast(f: Form)
    requires !AllWhitespace(f.firstName)
    requires IsValidEmail(Trim(f.email))
    requires !f.consent
    ensures Validate(f) == ConsentMissing
  {
    TrimEmptyIff(f.firstName);
  }

  /** The form may be sent exactly when the name has some text, the trimmed email is valid and consent is given. */
  lemma ValidatePassesIff(f: Form)
    ensures Validate(f) == "" <==> !AllWhitespace(f.firstName) && IsValidEmail(Trim(f.email)) && f.consent
  {
    TrimEmptyIff(f.firstName);
  }

  // ---------------------------------------------------------------------------
  // attribution

  /**
   * Each attribution field becomes the incoming value when that is non-empty
   * and keeps its previous value otherwise; the fields the visitor types are
   * not touched.
   */
  lemma AttributeFields(prev: Form, params: map<string, string>, referrer: string)
    ensures var next := Attribute(prev, params, referrer);
      && next.utmSource == (if Param(params, "utm_source") != "" then params["utm_source"] else prev.utmSource)
      && next.utmMedium == (if Param(params, "utm_medium") != "" then params["utm_medium"] else prev.utmMedium)
      && next.utmCampaign == (if Param(params, "utm_campaign") != "" then params["utm_campaign"] else prev.utmCampaign)
      && next.utmTerm == (if Param(params, "utm_term") != "" then params["utm_term"] else prev.utmTerm)
      && next.utmContent == (if Param(params, "utm_content") != "" then params["utm_content"] else prev.utmContent)
      && next.ref == (if referrer != "" then referrer else prev.ref)
      && next.firstName == prev.firstName && next.email == prev.email
      && next.phone == prev.phone && next.consent == prev.consent
  {
  }

  /** Capturing the same parameters twice gives the state that capturing them once gives. */
  lemma AttributeIdempotent(prev: Form, params: map<string, string>, referrer: string)
    ensures Attribute(Attribute(prev, params, referrer), params, referrer) == Attribute(prev, params, referrer)
  {
  }

  /** Capturing attribution never changes what `validate` says. */
  lemma AttributeKeepsValidation(prev: Form, params: map<string, string>, referrer: string)
    ensures Validate(Attribute(prev, params, referrer)) == Validate(prev)
  {
    ValidateReadsEntries(Attribute(prev, params, referrer), prev);
  }

  /** `validate` reads only the name, the email and the consent box. */
  lemma ValidateReadsEntries(f: Form, g: Form)
    requires f.firstName == g.firstName && f.email == g.email && f.consent == g.consent
    ensures Validate(f) == Validate(g)
  {
    if Trim(f.firstName) == "" {
    } else if Trim(f.email) == "" {
    } else if !IsValidEmail(Trim(f.email)) {
    } else {
    }
  }

  // ---------------------------------------------------------------------------
  // The submit handler

  /**
   * How the request ends, as the handler sees it: `fetch` or `res.json()`
   * rejects, the status is not 2xx, the body's `ok` is falsy, or the lead is
   * accepted.
   */
  datatype RequestOutcome = TransportFailed | StatusNotOk | BodyNotOk | Accepted

  /** A navigation scheduled with `setTimeout`. */
  datatype Redirect = Redirect(url: string, delayMs: nat)

  /** The page's state and the effects the submit handler has had. */
  class FormController {
    var form: Form
    var submitting: bool
    var error: string
    var success: bool
    /** The bodies of the requests sent to the lead endpoint, in order. */
    var sent: seq<Form>
    /** The navigations scheduled, in order. */
    var redirects: seq<Redirect>
    /** `NEXT_PUBLIC_OFFER_WALL_URL`, "" when unset. */
    const offerUrl: string

    /**
     * A request is in flight or has succeeded only after one was sent; a
     * navigation is scheduled only after a success, and always to the offer.
     */
    ghost predicate Valid()
      reads this
    {
      && (submitting || success ==> |sent| > 0)
      && (|redirects| > 0 ==> success && offerUrl != "")
      && (forall i :: 0 <= i < |redirects| ==> redirects[i] == Redirect(offerUrl, RedirectDelayMs))
    }

    constructor (offerUrl: string)
      ensures Valid()
      ensures this.offerUrl == offerUrl
      ensures form == InitialForm && !submitting && error == "" && !success
      ensures sent == [] && redirects == []
    {
      this.offerUrl := offerUrl;
      form := InitialForm;
      submitting, error, success := false, "", false;
      sent, redirects := [], [];
    }

    /** The mount effect: merge the query parameters and the referrer into the form. */
    method CaptureAttribution(params: map<string, string>, referrer: string)
      requires Valid()
      modifies this
      ensures Valid()
      ensures form == Attribute(old(form), params, referrer)
      ensures submitting == old(submitting) && error == old(error) && success == old(success)
      ensures sent == old(sent) && redirects == old(redirects)
    {
      form := Attribute(form, params, referrer);
    }

    /** Typing in the first-name input. */
    method SetFirstName(value: string)
      requires Valid()
      modifies this`form
      ensures Valid()
      ensures form == old(form).(firstName := value)
    {
      form := form.(firstName := value);
    }

    /** Typing in the email input. */
    method SetEmail(value: string)
      requires Valid()
      modifies this`form
      ensures Valid()
      ensures form == old(form).(email := value)
    {
      form := form.(email := value);
    }

    /** Typing in the phone input. */
    method SetPhone(value: string)
      requires Valid()
      modifies this`form
      ensures Valid()
      ensures form == old(form).(phone := value)
    {
      form := form.(phone := value);
    }

    /** Ticking or clearing the consent box. */
    method SetConsent(checked: bool)
      requires Valid()
      modifies this`form
      ensures Valid()
      ensures form == old(form).(consent := checked)
    {
      form := form.(consent := checked);
    }

    /**
     * The part of `onSubmit` up to the request: clear the error, validate, and
     * either show the message and stop, or mark the form as submitting and send
     * it. Returns whether a request was sent.
     */
    method BeginSubmit() returns (requested: bool)
      requires Valid()
      modifies this`error, this`submitting, this`sent
      ensures Valid()
      ensures requested <==> Validate(form) == ""
      ensures !requested ==> error == Validate(form) && submitting == old(submitting) && sent == old(sent)
      ensures requested ==> error == "" && submitting && sent == old(sent) + [form]
    {
      var message := Validate(form);
      error := "";
      if message != "" {
        error := message;
        return false;
      }
      submitting := true;
      sent := sent + [form];
      requested := true;
    }

    /**
     * The part of `onSubmit` after the request: on acceptance mark success and
     * schedule the navigation when an offer is configured; otherwise show the
     * generic message. Either way the form stops submitting.
     */
    method FinishSubmit(outcome: RequestOutcome)
      requires Valid() && submitting
      modifies this`error, this`submitting, this`success, this`redirects
      ensures Valid()
      ensures !submitting
      ensures outcome.Accepted? ==>
        && success && error == old(error)
        && redirects == old(redirects) + (if offerUrl != "" then [Redirect(offerUrl, RedirectDelayMs)] else [])
      ensures !outcome.Accepted? ==>
        error == SubmitFailed && success == old(success) && redirects == old(redirects)
    {
      if outcome.Accepted? {
        success := true;
        if offerUrl != "" {
          redirects := redirects + [Redirect(offerUrl, RedirectDelayMs)];
        }
      } else {
        error := SubmitFailed;
      }
      submitting := false;
    }

    /**
     * `onSubmit` as a whole, with `outcome` the way the request ends if one is
     * sent. A refused form shows its message and sends nothing; a sent form
     * always ends up not submitting.
     */
    method Submit(outcome: RequestOutcome) returns (requested: bool)
      requires Valid()
      modifies this`error, this`submitting, this`success, this`sent, this`redirects
      ensures Valid()
      ensures requested <==> Validate(form) == ""
      ensures !requested ==>
        && error == Validate(form) && submitting == old(submitting) && success == old(success)
        && sent == old(sent) && redirects == old(redirects)
      ensures requested ==> !submitting && sent == old(sent) + [form]
      ensures requested && outcome.Accepted? ==>
        && success && error == ""
        && redirects == old(redirects) + (if offerUrl != "" then [Redirect(offerUrl, RedirectDelayMs)] else [])
      ensures requested && !outcome.Accepted? ==>
        error == SubmitFailed && success == old(success) && redirects == old(redirects)
    {
      requested := BeginSubmit();
      if requested {
        FinishSubmit(outcome);
      }
    }
  }
}
