/**
 * The AutoMailService class: content generation (`GenerateMailContentAsync`)
 * and dispatch (`GenerateAndSendMailAsync`), over the catalogs the service is
 * constructed with. The SMTP send is a caller-supplied outcome and the clock
 * reading `DateTime.Now` is a parameter.
 */
module AutoMailService {
  import opened Wrappers
  import opened Text
  import opened Numbers
  import opened Calendar
  import opened Placeholders
  import opened MailModels
  import opened Renderer
  import opened Catalog
  import opened DataProvider
  import opened CatalogFacts
  import opened Codes
  import opened Wording

  /** The service's state: configuration and the two tables, read-only after construction. */
  datatype Service = Service(
    settings: EmailSettings,
    recipients: map<string, MailRecipient>,
    templates: map<string, MailTemplate>)

  /** The constructor: the tables are the shipped ones. */
  function NewService(settings: EmailSettings): Service {
    Service(settings, InitializeRecipients(), InitializeTemplates())
  }

  /** Which `return null` of the generator was taken. */
  datatype GenerationError = RecipientNotFound | TemplateNotFound | DataUnavailable(reason: Option<string>)

  const DefaultSenderEmail := "system@company.com"
  const DefaultSenderName := "System Administrator"

  /**
   * `GenerateMailContentAsync`: recipient first, then template, then data
   * (lookups by the exact code; only the data switch upper-cases), then both
   * patterns rendered and the sender filled in from configuration or defaults.
   */
  function GenerateMailContent(svc: Service, code: string, date: Date, rolls: seq<int>): (r: Result<MailContent, GenerationError>)
    requires ValidDate(date) && RollsFit(code, rolls)
    ensures code !in svc.recipients ==> r == Failure(RecipientNotFound)
    ensures code in svc.recipients && code !in svc.templates ==> r == Failure(TemplateNotFound)
    ensures code in svc.recipients && code in svc.templates ==> (r.Success? <==> ToUpper(code) in CodeTexts)
    ensures code in svc.recipients && code in svc.templates && ToUpper(code) !in CodeTexts
      ==> r == Failure(DataUnavailable(Some(UnknownCodeMessage)))
    ensures r.Success? ==>
              && r.value.recipientEmail == svc.recipients[code].email
              && r.value.recipientName == svc.recipients[code].name
              && r.value.senderEmail == svc.settings.senderEmail.GetOr(DefaultSenderEmail)
              && r.value.senderName == svc.settings.senderName.GetOr(DefaultSenderName)
  {
    if code !in svc.recipients then Failure(RecipientNotFound)
    else
      var recipient := svc.recipients[code];
      if code !in svc.templates then Failure(TemplateNotFound)
      else
        var template := svc.templates[code];
        var response := GetDataForCode(code, date, rolls);
        if !response.success then Failure(DataUnavailable(response.errorMessage))
        else
          var subject := ProcessTemplate(template.subject, response.data, date, recipient);
          var body := ProcessTemplate(template.bodyTemplate, response.data, date, recipient);
          Success(MailContent(
            subject, body, recipient.email, recipient.name,
            svc.settings.senderEmail.GetOr(DefaultSenderEmail),
            svc.settings.senderName.GetOr(DefaultSenderName)))
  }

  /** Heading of the caller's addendum, appended after the rendered body. */
  const AddendumHeading := "\n\nAdditional Message:\n"

  /** The body as sent: the caller's message is appended when it is given and not empty. */
  function WithAddendum(body: string, message: Option<string>): (r: string)
    ensures body <= r
    ensures r == body <==> message.None? || message.value == []
    ensures r != body ==> r[|body|..] == AddendumHeading + message.value
  {
    if message.Some? && message.value != [] then body + AddendumHeading + message.value else body
  }

  /** What the SMTP send did: delivered, or threw an exception with this message. */
  datatype SendOutcome = Delivered | Faulted(message: string)

  /** The result handed back, and the content handed to the SMTP send (None: the send was never called). */
  datatype Dispatch = Dispatch(result: MailSendResult, handedOver: Option<MailContent>)

  const GenerationFailedMessage := "Failed to generate mail content for the provided code."
  const SentMessage := "Mail sent successfully"

  /**
   * `GenerateAndSendMailAsync`: generate, append the addendum to the body, send,
   * and report. `send` is what the SMTP call does with the content and `now`
   * is the clock reading taken after it returns.
   */
  function GenerateAndSendMail(svc: Service, request: MailRequest, rolls: seq<int>, send: SendOutcome, now: DateTime): (d: Dispatch)
    requires ValidDate(request.selectedDate) && RollsFit(request.code, rolls)
    ensures d.result.sentAt == (if d.result.success then now else MinDateTime)
    ensures d.result.success ==> d.result.recipientEmail.Some?
    ensures var g := GenerateMailContent(svc, request.code, request.selectedDate, rolls);
            && (g.Failure? ==> d == Dispatch(MailSendResult(false, GenerationFailedMessage, MinDateTime, None), None))
            && (g.Success? ==> d.handedOver == Some(g.value.(body := WithAddendum(g.value.body, request.additionalMessage))))
            && (d.result.success <==> g.Success? && send.Delivered?)
            && (d.result.success ==> d.result == MailSendResult(true, SentMessage, now, Some(g.value.recipientEmail)))
            && (g.Success? && send.Faulted? ==> d.result == MailSendResult(false, "Error: " + send.message, MinDateTime, None))
  {
    match GenerateMailContent(svc, request.code, request.selectedDate, rolls)
    case Failure(_) => Dispatch(MailSendResult(false, GenerationFailedMessage, MinDateTime, None), None)
    case Success(content) =>
      var mail := content.(body := WithAddendum(content.body, request.additionalMessage));
      match send
      case Delivered => Dispatch(MailSendResult(true, SentMessage, now, Some(mail.recipientEmail)), Some(mail))
      case Faulted(message) => Dispatch(MailSendResult(false, "Error: " + message, MinDateTime, None), Some(mail))
  }

  /** The addendum touches only the body: the mail handed to the send is the generated one otherwise. */
  lemma DispatchKeepsGeneratedFields(svc: Service, request: MailRequest, rolls: seq<int>, send: SendOutcome, now: DateTime)
    requires ValidDate(request.selectedDate) && RollsFit(request.code, rolls)
    requires GenerateMailContent(svc, request.code, request.selectedDate, rolls).Success?
    ensures var g := GenerateMailContent(svc, request.code, request.selectedDate, rolls).value;
            var m := GenerateAndSendMail(svc, request, rolls, send, now).handedOver;
            && m.Some?
            && m.value.subject == g.subject && g.body <= m.value.body
            && m.value.recipientEmail == g.recipientEmail && m.value.recipientName == g.recipientName
            && m.value.senderEmail == g.senderEmail && m.value.senderName == g.senderName
  {
  }

  /** A missing recipient fails before the templates or the data are consulted. */
  lemma RecipientCheckedFirst(settings: EmailSettings, recipients: map<string, MailRecipient>,
                              t1: map<string, MailTemplate>, t2: map<string, MailTemplate>,
                              code: string, date: Date, r1: seq<int>, r2: seq<int>)
    requires ValidDate(date) && RollsFit(code, r1) && RollsFit(code, r2)
    requires code !in recipients
    ensures GenerateMailContent(Service(settings, recipients, t1), code, date, r1)
         == GenerateMailContent(Service(settings, recipients, t2), code, date, r2)
         == Failure(RecipientNotFound)
  {
  }

  /**
   * Whatever the tables, a template whose strings spell well-formed patterns
   * renders to those patterns with every token turned into its text, provided
   * no inserted text carries braces.
   */
  lemma GeneratedIsExpansion(svc: Service, code: string, date: Date, rolls: seq<int>, p: Pattern)
    requires ValidDate(date) && RollsFit(code, rolls)
    requires code in svc.recipients && code in svc.templates && ToUpper(code) in CodeTexts
    requires svc.templates[code].subject == Flatten(p.subject) && svc.templates[code].bodyTemplate == Flatten(p.body)
    requires WellFormed(p.subject) && WellFormed(p.body)
    requires RecipientBraceFree(svc.recipients[code]) && DataBraceFree(GetDataForCode(code, date, rolls).data)
    ensures var r := GenerateMailContent(svc, code, date, rolls);
            var data := GetDataForCode(code, date, rolls).data;
            && r.Success?
            && r.value.subject == Expand(p.subject, data, date, svc.recipients[code])
            && r.value.body == Expand(p.body, data, date, svc.recipients[code])
  {
    var data := GetDataForCode(code, date, rolls).data;
    RenderMatchesExpansion(p.subject, data, date, svc.recipients[code]);
    RenderMatchesExpansion(p.body, data, date, svc.recipients[code]);
  }

  /** When, in addition, the dataset supplies every token, nothing of the form `{...}` is left. */
  lemma GeneratedHasNoTokens(svc: Service, code: string, date: Date, rolls: seq<int>, p: Pattern)
    requires ValidDate(date) && RollsFit(code, rolls)
    requires code in svc.recipients && code in svc.templates && ToUpper(code) in CodeTexts
    requires svc.templates[code].subject == Flatten(p.subject) && svc.templates[code].bodyTemplate == Flatten(p.body)
    requires WellFormed(p.subject) && WellFormed(p.body)
    requires RecipientBraceFree(svc.recipients[code]) && DataBraceFree(GetDataForCode(code, date, rolls).data)
    requires TokensMatchKeys(p, Keys(GetDataForCode(code, date, rolls).data))
    ensures var r := GenerateMailContent(svc, code, date, rolls);
            r.Success? && BraceFree(r.value.subject) && BraceFree(r.value.body)
  {
    var data := GetDataForCode(code, date, rolls).data;
    GeneratedIsExpansion(svc, code, date, rolls, p);
    TokensSupplied(p, data);
    ExpandBraceFree(p.subject, data, date, svc.recipients[code]);
    ExpandBraceFree(p.body, data, date, svc.recipients[code]);
  }

  /** With the shipped tables, generation succeeds exactly for the five codes, and otherwise fails at the recipient step. */
  lemma ShippedGenerationOutcome(settings: EmailSettings, code: string, date: Date, rolls: seq<int>)
    requires ValidDate(date) && RollsFit(code, rolls)
    ensures GenerateMailContent(NewService(settings), code, date, rolls).Success? <==> code in CodeTexts
    ensures code !in CodeTexts ==> GenerateMailContent(NewService(settings), code, date, rolls) == Failure(RecipientNotFound)
  {
    ShippedRecipientKeys();
    ShippedTemplateKeys();
    if code in CodeTexts {
      CodeTextsSpelled(code);
    }
  }

  /**
   * The tables are looked up by the code as given while the data switch
   * upper-cases it: a lower-case code has data but no recipient.
   */
  lemma LookupIsCaseSensitive(svc: Service, date: Date, rolls: seq<int>)
    requires ValidDate(date) && RollsFit("pe", rolls)
    requires svc.recipients == InitializeRecipients()
    ensures GetDataForCode("pe", date, rolls).success
    ensures GenerateMailContent(svc, "pe", date, rolls) == Failure(RecipientNotFound)
  {
    LowerCaseCodeExample();
    ShippedRecipientKeys();
  }

  /**
   * For each code, the subject and body are the code's patterns with every
   * token turned into the text it stands for, addressed to the code's recipient.
   */
  lemma ShippedContentIsExpansion(settings: EmailSettings, c: Code, date: Date, rolls: seq<int>)
    requires ValidDate(date) && RollsFit(CodeText(c), rolls)
    ensures var r := GenerateMailContent(NewService(settings), CodeText(c), date, rolls);
            var data := GetDataForCode(CodeText(c), date, rolls).data;
            && r.Success?
            && r.value.subject == Expand(PatternFor(c).subject, data, date, ContactFor(c))
            && r.value.body == Expand(PatternFor(c).body, data, date, ContactFor(c))
            && r.value.recipientEmail == ContactFor(c).email
  {
    CodeOfText(c);
    ShippedRecipient(c);
    ShippedTemplate(c);
    PatternsMatchStrategies(c);
    StrategyDataBraceFree(c, date, rolls);
    GeneratedIsExpansion(NewService(settings), CodeText(c), date, rolls, PatternFor(c));
  }

  /** Rendering any code's templates leaves no `{...}` token in subject or body. */
  lemma ShippedContentHasNoTokens(settings: EmailSettings, c: Code, date: Date, rolls: seq<int>)
    requires ValidDate(date) && RollsFit(CodeText(c), rolls)
    ensures var r := GenerateMailContent(NewService(settings), CodeText(c), date, rolls);
            r.Success? && BraceFree(r.value.subject) && BraceFree(r.value.body)
  {
    CodeOfText(c);
    ShippedRecipient(c);
    ShippedTemplate(c);
    PatternsMatchStrategies(c);
    StrategyDataBraceFree(c, date, rolls);
    GeneratedHasNoTokens(NewService(settings), CodeText(c), date, rolls, PatternFor(c));
  }

  /**
   * The production employee's mail, end to end: generation succeeds for "PE",
   * goes to the registered address, is titled with the printed date, and its
   * body reports the units produced and the performance message they decide.
   */
  lemma GeneratedProductionReport(settings: EmailSettings, date: Date, rolls: seq<int>)
    requires ValidDate(date) && Fits(rolls, ProductionEmployeeDraws)
    ensures var r := GenerateMailContent(NewService(settings), CodeText(PE), date, rolls);
            && r.Success?
            && r.value.recipientEmail == ProductionEmployeeContact.email
            && (date == Date(2024, 3, 5) ==> r.value.subject == "Production Report - " + "05 March 2024")
            && Contains(r.value.body, PeUnitsProducedLead + IntToString(rolls[0]))
            && Contains(r.value.body, PePerformanceMessageLead + (if rolls[0] >= Target then TargetAchieved else TargetMissed))
  {
    CodeOfText(PE);
    assert RollsFit(CodeText(PE), rolls);
    var data := GetDataForCode(CodeText(PE), date, rolls).data;
    assert data == ProductionEmployeeData(date, rolls);
    ShippedContentIsExpansion(settings, PE, date, rolls);
    if date == Date(2024, 3, 5) {
      ProductionSubjectExample(data);
    }
    ProductionBodyReportsUnits(date, rolls);
    ProductionBodyReportsMessage(date, rolls);
  }
}
