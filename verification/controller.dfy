/**
 * The test page controller's actions: each checks that a code was given,
 * normalises it with `Trim().ToUpper()` and hands it to the mail service.
 * A null form field and an empty one take the same branch and are both the
 * empty string here.
 */
module TestPageController {
  import opened Wrappers
  import opened Text
  import opened Calendar
  import opened MailModels
  import opened DataProvider
  import opened Codes
  import opened Catalog
  import opened CatalogFacts
  import opened AutoMailService

  const InvalidCodeMessage := "Please provide a valid code"
  const PreviewFailedMessage := "Could not generate mail content for the provided code"
  const CodeRequiredMessage := "Code is required"

  /** `code.Trim().ToUpper()`. */
  function NormalizeCode(code: string): (r: string)
    ensures Trimmed(r) && |r| <= |code|
    ensures forall i :: 0 <= i < |r| ==> !IsAsciiLower(r[i])
    ensures r == [] <==> AllWhiteSpace(code)
  {
    UpperKeepsTrimmed(Trim(code));
    ToUpper(Trim(code))
  }

  /** A normalised code is its own upper-case form. */
  lemma NormalizedIsUpper(code: string)
    ensures ToUpper(NormalizeCode(code)) == NormalizeCode(code)
  {
    ToUpperIdempotent(Trim(code));
  }

  /** Normalising a normalised code changes nothing. */
  lemma NormalizeIdempotent(code: string)
    ensures NormalizeCode(NormalizeCode(code)) == NormalizeCode(code)
  {
    TrimOfUpper(code);
    ToUpperIdempotent(Trim(code));
  }

  /** A code typed with surrounding blanks and in lower case reaches the `PE` tables. */
  lemma NormalizeExample()
    ensures NormalizeCode(" pe ") == "PE"
  {
    TrimKeepsCore(" ", "pe", " ");
    assert " " + "pe" + " " == " pe ";
  }

  // ---------------------------------------------------------------------------
  // SendMail
  // ---------------------------------------------------------------------------

  /** The one-shot message stored in TempData for the page shown after the redirect. */
  datatype Notice = SuccessNotice(text: string) | ErrorNotice(text: string)

  /** The notice, and the dispatch the service performed (None: the service was not called). */
  datatype SendMailOutcome = SendMailOutcome(notice: Notice, dispatch: Option<Dispatch>)

  /** An unset nullable value interpolates as the empty string. */
  function TextOrEmpty(s: Option<string>): string {
    s.GetOr("")
  }

  /**
   * The notice a send result becomes: a success names the recipient's address
   * and the send time, a failure shows the result's message.
   */
  function NoticeOf(result: MailSendResult): (n: Notice)
    requires result.success ==> ValidDateTime(result.sentAt)
    ensures n.SuccessNotice? <==> result.success
    ensures n.SuccessNotice? ==>
              n.text == "Mail sent successfully to " + TextOrEmpty(result.recipientEmail) + " at " + FormatTimestamp(result.sentAt)
    ensures n.ErrorNotice? ==> n.text == result.message
  {
    if result.success then
      SuccessNotice("Mail sent successfully to " + TextOrEmpty(result.recipientEmail) + " at " + FormatTimestamp(result.sentAt))
    else
      ErrorNotice(result.message)
  }

  /**
   * `SendMail`: an empty code is refused without calling the service;
   * otherwise the normalised request is dispatched and its result turned into a
   * success or error notice.
   */
  function SendMail(svc: Service, code: string, selectedDate: Date, additionalMessage: Option<string>,
                    rolls: seq<int>, send: SendOutcome, now: DateTime): (r: SendMailOutcome)
    requires ValidDate(selectedDate) && ValidDateTime(now) && RollsFit(NormalizeCode(code), rolls)
    ensures code == [] ==> r == SendMailOutcome(ErrorNotice(InvalidCodeMessage), None)
    ensures code != [] ==>
              r.dispatch == Some(GenerateAndSendMail(svc, MailRequest(NormalizeCode(code), selectedDate, additionalMessage), rolls, send, now))
    ensures code != [] ==> r.notice == NoticeOf(r.dispatch.value.result)
  {
    if code == [] then SendMailOutcome(ErrorNotice(InvalidCodeMessage), None)
    else
      var request := MailRequest(NormalizeCode(code), selectedDate, additionalMessage);
      var d := GenerateAndSendMail(svc, request, rolls, send, now);
      SendMailOutcome(NoticeOf(d.result), Some(d))
  }

  /**
   * When the normalised code generates and the SMTP send goes through, the page
   * names the registered address of the normalised code and the send time;
   * when the send throws, it shows the exception's message.
   */
  lemma SendMailReportsDelivery(svc: Service, code: string, selectedDate: Date, additionalMessage: Option<string>,
                                rolls: seq<int>, send: SendOutcome, now: DateTime)
    requires ValidDate(selectedDate) && ValidDateTime(now) && RollsFit(NormalizeCode(code), rolls)
    requires code != [] && GenerateMailContent(svc, NormalizeCode(code), selectedDate, rolls).Success?
    ensures var n := SendMail(svc, code, selectedDate, additionalMessage, rolls, send, now).notice;
            && (send.Delivered? ==>
                  n == SuccessNotice("Mail sent successfully to " + svc.recipients[NormalizeCode(code)].email + " at " + FormatTimestamp(now)))
            && (send.Faulted? ==> n == ErrorNotice("Error: " + send.message))
  {
  }

  /**
   * A code of blanks passes the emptiness check but normalises to the empty
   * code, which no recipient is registered under: the page reports the
   * generation failure.
   */
  lemma BlankCodeFailsGeneration(svc: Service, code: string, selectedDate: Date, additionalMessage: Option<string>,
                                 rolls: seq<int>, send: SendOutcome, now: DateTime)
    requires ValidDate(selectedDate) && ValidDateTime(now) && RollsFit(NormalizeCode(code), rolls)
    requires code != [] && AllWhiteSpace(code) && "" !in svc.recipients
    ensures SendMail(svc, code, selectedDate, additionalMessage, rolls, send, now).notice == ErrorNotice(GenerationFailedMessage)
    ensures SendMail(svc, code, selectedDate, additionalMessage, rolls, send, now).dispatch.value.handedOver == None
  {
  }

  /** The shipped tables register nothing under the empty code. */
  lemma ShippedHasNoBlankCode()
    ensures "" !in InitializeRecipients() && "" !in InitializeTemplates()
  {
    ShippedRecipientKeys();
    ShippedTemplateKeys();
  }

  // ---------------------------------------------------------------------------
  // PreviewMail
  // ---------------------------------------------------------------------------

  /** The JSON the preview returns. */
  datatype Preview =
    | PreviewRefused(message: string)
    | PreviewShown(subject: string, body: string, recipient: string, recipientName: string)

  /** `PreviewMail`: the generated content of the normalised code, without sending it. */
  function PreviewMail(svc: Service, code: string, selectedDate: Date, rolls: seq<int>): (r: Preview)
    requires ValidDate(selectedDate) && RollsFit(NormalizeCode(code), rolls)
    ensures code == [] ==> r == PreviewRefused(InvalidCodeMessage)
    ensures code != [] ==>
              match GenerateMailContent(svc, NormalizeCode(code), selectedDate, rolls)
              case Failure(_) => r == PreviewRefused(PreviewFailedMessage)
              case Success(m) => r == PreviewShown(m.subject, m.body, m.recipientEmail, m.recipientName)
  {
    if code == [] then PreviewRefused(InvalidCodeMessage)
    else
      match GenerateMailContent(svc, NormalizeCode(code), selectedDate, rolls)
      case Failure(_) => PreviewRefused(PreviewFailedMessage)
      case Success(m) => PreviewShown(m.subject, m.body, m.recipientEmail, m.recipientName)
  }

  /**
   * The preview succeeds exactly when sending would get as far as the SMTP
   * call. Each request draws its own random numbers, so this holds for any
   * two draw sequences: whether generation succeeds never depends on them.
   */
  lemma PreviewSucceedsIffSendReachesSmtp(svc: Service, code: string, selectedDate: Date,
                                          additionalMessage: Option<string>, previewRolls: seq<int>,
                                          sendRolls: seq<int>, send: SendOutcome, now: DateTime)
    requires ValidDate(selectedDate) && ValidDateTime(now)
    requires RollsFit(NormalizeCode(code), previewRolls) && RollsFit(NormalizeCode(code), sendRolls)
    requires code != []
    ensures PreviewMail(svc, code, selectedDate, previewRolls).PreviewShown?
            <==> SendMail(svc, code, selectedDate, additionalMessage, sendRolls, send, now).dispatch.value.handedOver.Some?
  {
  }

  /**
   * For the same random draws, what the preview shows is what sending would
   * hand to SMTP, except for the addendum after the body. The program itself
   * draws afresh on every request, so a preview's numbers need not be the
   * ones a later send reports.
   */
  lemma PreviewMatchesSend(svc: Service, code: string, selectedDate: Date, additionalMessage: Option<string>,
                           rolls: seq<int>, send: SendOutcome, now: DateTime)
    requires ValidDate(selectedDate) && ValidDateTime(now) && RollsFit(NormalizeCode(code), rolls)
    requires code != []
    ensures var p := PreviewMail(svc, code, selectedDate, rolls);
            var d := SendMail(svc, code, selectedDate, additionalMessage, rolls, send, now).dispatch.value;
            && (p.PreviewShown? <==> d.handedOver.Some?)
            && (p.PreviewShown? ==>
                  && d.handedOver.value.subject == p.subject
                  && d.handedOver.value.body == WithAddendum(p.body, additionalMessage)
                  && d.handedOver.value.recipientEmail == p.recipient
                  && d.handedOver.value.recipientName == p.recipientName)
  {
  }

  // ---------------------------------------------------------------------------
  // GetDataForCode
  // ---------------------------------------------------------------------------

  /** The JSON the data action returns: a refusal, or the response's success flag, data and error. */
  datatype DataReply = DataRefused(message: string) | DataShown(response: DataResponse)

  /** `GetDataForCode`: refuses an empty code, otherwise asks the service for the normalised code's data. */
  function GetDataForCodeAction(code: string, date: Date, rolls: seq<int>): (r: DataReply)
    requires RollsFit(NormalizeCode(code), rolls)
    ensures code == [] ==> r == DataRefused(CodeRequiredMessage)
    ensures code != [] ==> r == DataShown(GetDataForCode(NormalizeCode(code), date, rolls))
  {
    if code == [] then DataRefused(CodeRequiredMessage)
    else DataShown(GetDataForCode(NormalizeCode(code), date, rolls))
  }

  /**
   * The action succeeds exactly for codes that normalise to one of the five
   * spellings; any other non-empty code gets the service's unknown-code reply.
   */
  lemma DataActionOutcome(code: string, date: Date, rolls: seq<int>)
    requires RollsFit(NormalizeCode(code), rolls) && code != []
    ensures var r := GetDataForCodeAction(code, date, rolls);
            && r.DataShown?
            && (r.response.success <==> NormalizeCode(code) in CodeTexts)
            && (!r.response.success ==> r.response == DataResponse([], false, Some(UnknownCodeMessage)))
  {
    NormalizedIsUpper(code);
  }

  /** Normalising twice is harmless: the action returns what the service returns for the normalised code. */
  lemma DataActionNormalizes(code: string, date: Date, rolls: seq<int>)
    requires RollsFit(NormalizeCode(code), rolls) && code != []
    ensures RollsFit(NormalizeCode(NormalizeCode(code)), rolls)
    ensures GetDataForCodeAction(code, date, rolls) == DataShown(GetDataForCode(NormalizeCode(NormalizeCode(code)), date, rolls))
  {
    NormalizeIdempotent(code);
  }

  // ---------------------------------------------------------------------------
  // GetAvailableCodes
  // ---------------------------------------------------------------------------

  datatype CodeInfo = CodeInfo(code: string, description: string, department: string)

  /** `GetAvailableCodes`: the fixed list shown on the page. */
  function GetAvailableCodes(): (r: seq<CodeInfo>)
    ensures |r| == 5
  {
    [ CodeInfo("PE", "Production Employee", "Production"),
      CodeInfo("PM", "Production Manager", "Production"),
      CodeInfo("HR", "Human Resource", "Human Resources"),
      CodeInfo("FN", "Finance Department", "Finance"),
      CodeInfo("IT", "IT Department", "Information Technology") ]
  }

  /** No code is listed twice. */
  lemma AvailableCodesDistinct()
    ensures forall i, j :: 0 <= i < j < |GetAvailableCodes()| ==> GetAvailableCodes()[i].code != GetAvailableCodes()[j].code
  {
  }

  /**
   * Every listed code has a recipient, in the listed department, except that
   * the page spells out IT's department while the recipient table abbreviates it.
   */
  lemma AvailableCodesRegistered()
    ensures forall i :: 0 <= i < |GetAvailableCodes()| ==> GetAvailableCodes()[i].code in InitializeRecipients()
    ensures forall i :: 0 <= i < |GetAvailableCodes()| && GetAvailableCodes()[i].code != "IT" ==>
              GetAvailableCodes()[i].department == InitializeRecipients()[GetAvailableCodes()[i].code].department
    ensures GetAvailableCodes()[4].code == "IT" && GetAvailableCodes()[4].department == "Information Technology"
    ensures InitializeRecipients()["IT"].department == "IT"
  {
  }

  /** Every code with a recipient is listed. */
  lemma RegisteredCodesAvailable(code: string)
    requires code in InitializeRecipients()
    ensures exists i :: 0 <= i < |GetAvailableCodes()| && GetAvailableCodes()[i].code == code
  {
    ShippedRecipientKeys();
    var i := match CodeOf(code).value case PE => 0 case PM => 1 case HR => 2 case FN => 3 case IT => 4;
    assert GetAvailableCodes()[i].code == code;
  }
}
