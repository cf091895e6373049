/**
 * The endpoint through which an integration's owner asks for it to be
 * published. Guards run in a fixed order and each rejects with status 400;
 * only when all pass is the integration's status moved to "publish request
 * in progress", a mail built from the questionnaire sent to the partners
 * address, and 201 returned.
 *
 * The logo-upload feature flag and the two avatar-existence queries are
 * inputs; the integration is a `SentryApp` object whose status the endpoint
 * updates, and sent mail is appended to an `Outbox`.
 */
module SentryAppPublishRequest {
  import opened Wrappers

  /** One element of an integration's UI schema; `elementType` is its "type" key, if any. */
  datatype Element = Element(elementType: Option<string>)

  /** A UI schema; `elements` is its "elements" key, if any. */
  datatype Schema = Schema(elements: Option<seq<Element>>)

  datatype AppStatus = Unpublished | Published | Internal | PublishRequestInProgress

  datatype QuestionPair = QuestionPair(question: string, answer: string)

  datatype Mail = Mail(subject: string, body: string, fromAddress: string, to: seq<string>, replyTo: seq<string>)

  /** The response: 400 with a detail message, 201, or 500 for an uncaught exception. */
  datatype PublishResponse = BadRequest(detail: string) | Created | ServerError

  function StatusCode(r: PublishResponse): int
  {
    match r
    case BadRequest(_) => 400
    case Created => 201
    case ServerError => 500
  }

  const AlreadyPublished: string := "Cannot publish already published integration."
  const InternalIntegration: string := "Cannot publish internal integration."
  const RequestInProgress: string := "Publish request in progress."
  const LogoMissing: string := "Must upload a logo for the integration."
  const BlackWhiteLogoMissing: string := "Must upload a black and white logo for issue linking integrations."
  const PartnersAddress: string := "partners@sentry.io"

  /** `any(element.get("type") == "issue-link" for element in elements)`. */
  function AnyIssueLink(elements: seq<Element>): (r: bool)
    ensures r <==> exists k :: 0 <= k < |elements| && elements[k].elementType == Some("issue-link")
  {
    if elements == [] then false
    else elements[0].elementType == Some("issue-link") || AnyIssueLink(elements[1..])
  }

  /** `is_issue_link_integration`: a missing schema or a schema without elements gives false. */
  function IsIssueLinkIntegration(schema: Option<Schema>): (r: bool)
    ensures r <==> schema.Some? && schema.value.elements.Some?
                   && exists k :: 0 <= k < |schema.value.elements.value|
                                  && schema.value.elements.value[k].elementType == Some("issue-link")
  {
    match schema
    case None => false
    case Some(s) => if s.elements.None? then false else AnyIssueLink(s.elements.value)
  }

  /**
   * The guard chain of `post`: the detail of the first guard that rejects,
   * or None when the request may proceed.
   */
  function PublishGuard(status: AppStatus, schema: Option<Schema>, logoUploadFeature: bool,
                        hasColorLogo: bool, hasBlackWhiteLogo: bool): (r: Option<string>)
    ensures status == Published ==> r == Some(AlreadyPublished)
    ensures status == Internal ==> r == Some(InternalIntegration)
    ensures status == PublishRequestInProgress ==> r == Some(RequestInProgress)
    ensures status == Unpublished && logoUploadFeature && !hasColorLogo ==> r == Some(LogoMissing)
    ensures (status == Unpublished && logoUploadFeature && hasColorLogo && IsIssueLinkIntegration(schema)
             && !hasBlackWhiteLogo) ==> r == Some(BlackWhiteLogoMissing)
    ensures r.None? <==> (status == Unpublished && (logoUploadFeature ==> hasColorLogo)
                          && (logoUploadFeature && IsIssueLinkIntegration(schema) ==> hasBlackWhiteLogo))
  {
    match status
    case Published => Some(AlreadyPublished)
    case Internal => Some(InternalIntegration)
    case PublishRequestInProgress => Some(RequestInProgress)
    case Unpublished =>
      if logoUploadFeature && !hasColorLogo then Some(LogoMissing)
      else if logoUploadFeature && IsIssueLinkIntegration(schema) && !hasBlackWhiteLogo then Some(BlackWhiteLogoMissing)
      else None
  }

  /** The mail block of one questionnaire answer. */
  function QuestionBlock(pair: QuestionPair): string
  {
    "\n\n>" + pair.question + "\n" + pair.answer
  }

  /** The questionnaire's blocks, in order. */
  function QuestionnaireText(pairs: seq<QuestionPair>): (text: string)
    ensures |text| >= 4 * |pairs|
    ensures text == "" <==> pairs == []
  {
    if pairs == [] then "" else QuestionnaireText(pairs[..|pairs| - 1]) + QuestionBlock(pairs[|pairs| - 1])
  }

  /** The text of two parts of a questionnaire is the text of the first followed by that of the second. */
  lemma {:induction false} QuestionnaireTextConcat(first: seq<QuestionPair>, second: seq<QuestionPair>)
    ensures QuestionnaireText(first + second) == QuestionnaireText(first) + QuestionnaireText(second)
  {
    if second == [] {
      assert first + second == first;
    } else {
      var init, last := second[..|second| - 1], second[|second| - 1];
      var whole := first + second;
      assert whole[..|whole| - 1] == first + init;
      assert whole[|whole| - 1] == last;
      var a, b, c := QuestionnaireText(first), QuestionnaireText(init), QuestionBlock(last);
      assert QuestionnaireText(whole) == QuestionnaireText(first + init) + c;
      assert QuestionnaireText(second) == b + c;
      QuestionnaireTextConcat(first, init);
      assert (a + b) + c == a + (b + c);
    }
  }

  /** The first line of the mail. */
  function MessageHeader(userEmail: string, ownerSlug: string, appSlug: string): (header: string)
    ensures |header| >= |"User "| + |userEmail| + |appSlug| + 1
    ensures header[..|"User "| + |userEmail|] == "User " + userEmail
    ensures header[|header| - |appSlug| - 1..] == appSlug + "\n"
  {
    var front := "User " + userEmail;
    var back := appSlug + "\n";
    var h := front + (" of organization " + ownerSlug + " wants to publish ") + back;
    assert h[..|front|] == front;
    assert h[|h| - |back|..] == back;
    h
  }

  /** The mail body: the header, then a block per questionnaire pair, in order. */
  method BuildMessage(header: string, questionnaire: seq<QuestionPair>) returns (message: string)
    ensures message == header + QuestionnaireText(questionnaire)
  {
    message := header;
    var k := 0;
    while k < |questionnaire|
      invariant 0 <= k <= |questionnaire|
      invariant message == header + QuestionnaireText(questionnaire[..k])
    {
      assert questionnaire[..k + 1][..k] == questionnaire[..k];
      message := message + QuestionBlock(questionnaire[k]);
      k := k + 1;
    }
    assert questionnaire[..k] == questionnaire;
  }

  /** The integration whose publication is requested. */
  class SentryApp {
    var status: AppStatus
    const slug: string
    const ownerSlug: string
    const schema: Option<Schema>

    constructor (status: AppStatus, slug: string, ownerSlug: string, schema: Option<Schema>)
      ensures this.status == status && this.slug == slug && this.ownerSlug == ownerSlug && this.schema == schema
    {
      this.status := status;
      this.slug := slug;
      this.ownerSlug := ownerSlug;
      this.schema := schema;
    }
  }

  /** The mails handed to the mail service. */
  class Outbox {
    var sent: seq<Mail>

    constructor ()
      ensures sent == []
    {
      sent := [];
    }

    method Send(mail: Mail)
      modifies this
      ensures sent == old(sent) + [mail]
    {
      sent := sent + [mail];
    }
  }

  /**
   * `SentryAppPublishRequestEndpoint.post`. `questionnaire` is the request's
   * "questionnaire" field (None when absent: iterating it raises, after the
   * status update); `mailFrom` is the "mail.from" option.
   */
  method Post(app: SentryApp, outbox: Outbox, userEmail: string, questionnaire: Option<seq<QuestionPair>>,
              logoUploadFeature: bool, hasColorLogo: bool, hasBlackWhiteLogo: bool, mailFrom: string)
    returns (response: PublishResponse)
    modifies app, outbox
    ensures var guard := PublishGuard(old(app.status), app.schema, logoUploadFeature, hasColorLogo, hasBlackWhiteLogo);
            && (guard.Some? ==> response == BadRequest(guard.value) && StatusCode(response) == 400
                                && app.status == old(app.status) && outbox.sent == old(outbox.sent))
            && (guard.None? ==> app.status == PublishRequestInProgress)
            && (guard.None? && questionnaire.None? ==> response == ServerError && outbox.sent == old(outbox.sent))
            && (guard.None? && questionnaire.Some? ==>
                  response == Created && StatusCode(response) == 201
                  && outbox.sent == old(outbox.sent) + [Mail(
                       "Sentry Integration Publication Request from " + app.ownerSlug,
                       MessageHeader(userEmail, app.ownerSlug, app.slug) + QuestionnaireText(questionnaire.value),
                       mailFrom, [PartnersAddress], [userEmail])])
  {
    if app.status == Published {
      return BadRequest(AlreadyPublished);
    }
    if app.status == Internal {
      return BadRequest(InternalIntegration);
    }
    if app.status == PublishRequestInProgress {
      return BadRequest(RequestInProgress);
    }
    if logoUploadFeature {
      if !hasColorLogo {
        return BadRequest(LogoMissing);
      }
      if IsIssueLinkIntegration(app.schema) && !hasBlackWhiteLogo {
        return BadRequest(BlackWhiteLogoMissing);
      }
    }

    app.status := PublishRequestInProgress;

    if questionnaire.None? {
      return ServerError;
    }
    var message := BuildMessage(MessageHeader(userEmail, app.ownerSlug, app.slug), questionnaire.value);
    var subject := "Sentry Integration Publication Request from " + app.ownerSlug;
    outbox.Send(Mail(subject, message, mailFrom, [PartnersAddress], [userEmail]));
    return Created;
  }

  /**
   * The same request sent twice. A request that went through leaves the
   * integration in progress, so the second is refused and sends no mail; a
   * refused request changes nothing, so the second is refused the same way.
   */
  method PostTwice(app: SentryApp, outbox: Outbox, userEmail: string, questionnaire: Option<seq<QuestionPair>>,
                   logoUploadFeature: bool, hasColorLogo: bool, hasBlackWhiteLogo: bool, mailFrom: string)
    returns (first: PublishResponse, second: PublishResponse)
    modifies app, outbox
    ensures var guard := PublishGuard(old(app.status), app.schema, logoUploadFeature, hasColorLogo, hasBlackWhiteLogo);
            && (guard.None? ==> second == BadRequest(RequestInProgress) && app.status == PublishRequestInProgress
                                && |outbox.sent| == |old(outbox.sent)| + (if questionnaire.Some? then 1 else 0))
            && (guard.Some? ==> second == first && app.status == old(app.status) && outbox.sent == old(outbox.sent))
  {
    first := Post(app, outbox, userEmail, questionnaire, logoUploadFeature, hasColorLogo, hasBlackWhiteLogo, mailFrom);
    second := Post(app, outbox, userEmail, questionnaire, logoUploadFeature, hasColorLogo, hasBlackWhiteLogo, mailFrom);
  }
}
