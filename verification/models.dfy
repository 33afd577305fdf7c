/** The records the mail service passes around (the Models namespace). */
module MailModels {
  import opened Wrappers
  import opened Calendar

  /** What a caller asks for: a code, the reference date and an optional addendum (null = None). */
  datatype MailRequest = MailRequest(code: string, selectedDate: Date, additionalMessage: Option<string>)

  datatype MailRecipient = MailRecipient(code: string, name: string, email: string, department: string, role: string)

  /** A subject pattern and a body pattern with `{Name}` tokens. */
  datatype MailTemplate = MailTemplate(code: string, subject: string, bodyTemplate: string, category: string)

  datatype MailContent = MailContent(
    subject: string,
    body: string,
    recipientEmail: string,
    recipientName: string,
    senderEmail: string,
    senderName: string)

  /**
   * The outcome of a dispatch. Unless the send succeeded, `sentAt` keeps the
   * default `DateTime` value and `recipientEmail` stays null (None).
   */
  datatype MailSendResult = MailSendResult(
    success: bool,
    message: string,
    sentAt: DateTime,
    recipientEmail: Option<string>)

  /** The boxed `object` values a data strategy produces: integers or strings. */
  datatype DataValue = IntValue(i: int) | TextValue(s: string)

  /** One dictionary entry; a null value is None. */
  datatype DataEntry = DataEntry(key: string, value: Option<DataValue>)

  /** A `Dictionary<string, object>` in enumeration order. */
  type DataSet = seq<DataEntry>

  datatype DataResponse = DataResponse(data: DataSet, success: bool, errorMessage: Option<string>)

  /** The `EmailSettings` configuration entries the generator reads (unset = None). */
  datatype EmailSettings = EmailSettings(senderEmail: Option<string>, senderName: Option<string>)

  /** The keys in enumeration order. */
  function Keys(data: DataSet): (ks: seq<string>)
    ensures |ks| == |data|
  {
    seq(|data|, i requires 0 <= i < |data| => data[i].key)
  }

  /** The first entry for `key` in enumeration order. */
  function Find(data: DataSet, key: string): Option<DataEntry>
    decreases |data|
  {
    if |data| == 0 then None
    else if data[0].key == key then Some(data[0])
    else Find(data[1..], key)
  }

  /** A lookup finds an entry of the dataset exactly when the key is one of its keys. */
  lemma {:induction false} FindFindsKey(data: DataSet, key: string)
    ensures Find(data, key).Some? <==> key in Keys(data)
    ensures Find(data, key).Some? ==> Find(data, key).value in data && Find(data, key).value.key == key
    decreases |data|
  {
    if |data| > 0 {
      assert Keys(data) == [data[0].key] + Keys(data[1..]);
      FindFindsKey(data[1..], key);
    }
  }

  /** `data[key]` when present; None also for a null value. */
  function ValueOf(data: DataSet, key: string): Option<DataValue> {
    match Find(data, key)
    case Some(e) => e.value
    case None => None
  }

  /** An entry whose key no earlier entry has is the one a lookup finds. */
  lemma {:induction false} FindAt(data: DataSet, i: int)
    requires 0 <= i < |data|
    requires forall j :: 0 <= j < i ==> data[j].key != data[i].key
    ensures Find(data, data[i].key) == Some(data[i])
    decreases i
  {
    if i > 0 {
      FindAt(data[1..], i - 1);
    }
  }
}
