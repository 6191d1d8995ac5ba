/**
 * `EmailOperations` (core/email_operations.py): reading the fields of a
 * Graph API message with defaults, and choosing where its attachments come
 * from. A Graph request is the parameter `fetch`.
 */
module EmailOperations {
  import opened Wrappers
  import opened Json

  // ---------------------------------------------------------------------
  // extract_email_fields

  /** The six keys of the dictionary `extract_email_fields` returns. */
  datatype EmailFields = EmailFields(
    subject: Value,
    bodyContent: Value,
    bodyType: Value,
    sender: Value,
    receivedDatetime: Value,
    hasAttachments: Value)

  const DefaultSubject: Value := JStr("Sin asunto")
  const UnknownSender: Value := JStr("Desconocido")

  /** The sender: `from.emailAddress.address` when both levels are present and truthy, else the unknown sender. */
  function Sender(from: Value): (r: Option<Value>)
    ensures !Truthy(from) ==> r == Some(UnknownSender)
    ensures (from.JObj? && "emailAddress" in from.fields && from.fields["emailAddress"].JObj?
             && "address" in from.fields["emailAddress"].fields && Truthy(from.fields["emailAddress"]))
            ==> r == Some(from.fields["emailAddress"].fields["address"])
    ensures (from.JObj? && (("emailAddress" !in from.fields) || !Truthy(from.fields["emailAddress"])))
            ==> r == Some(UnknownSender)
    ensures (from.JObj? && "emailAddress" in from.fields && from.fields["emailAddress"].JObj?
             && "address" !in from.fields["emailAddress"].fields && Truthy(from.fields["emailAddress"]))
            ==> r == Some(UnknownSender)
    ensures (from.JObj? && "emailAddress" in from.fields && !from.fields["emailAddress"].JObj?
             && Truthy(from.fields["emailAddress"]))
            ==> r.None?
    ensures Truthy(from) && !from.JObj? ==> r.None?
  {
    if !Truthy(from) then Some(UnknownSender)
    else match Get(from, "emailAddress", JNull)
      case None => None
      case Some(address) =>
        if !Truthy(address) then Some(UnknownSender)
        else Get(address, "address", UnknownSender)
  }

  /**
   * `extract_email_fields`. The function has no `try`: a message or body
   * that is not a dictionary makes a `.get` raise, which is `None` here.
   */
  function ExtractEmailFields(message: Value): (r: Option<EmailFields>)
    ensures r.Some? ==> message.JObj?
    ensures r.Some? ==> var m := message.fields;
      && r.value.subject == (if "subject" in m then m["subject"] else DefaultSubject)
      && r.value.receivedDatetime == (if "receivedDateTime" in m then m["receivedDateTime"] else JStr(""))
      && r.value.hasAttachments == (if "hasAttachments" in m then m["hasAttachments"] else JBool(false))
    ensures r.Some? && "body" !in message.fields ==> r.value.bodyContent == JStr("") && r.value.bodyType == JStr("text")
    ensures r.Some? && "body" in message.fields ==> message.fields["body"].JObj?
    ensures r.Some? && "body" in message.fields ==> var b := message.fields["body"].fields;
      && r.value.bodyContent == (if "content" in b then b["content"] else JStr(""))
      && r.value.bodyType == (if "contentType" in b then b["contentType"] else JStr("text"))
    ensures r.Some? ==> Sender(if "from" in message.fields then message.fields["from"] else JNull) == Some(r.value.sender)
    ensures r.Some? && ("from" !in message.fields || !Truthy(message.fields["from"])) ==> r.value.sender == UnknownSender
  {
    match message
    case JObj(m) =>
      var subject := if "subject" in m then m["subject"] else DefaultSubject;
      var body := if "body" in m then m["body"] else EmptyObject;
      var content := Get(body, "content", JStr(""));
      var contentType := Get(body, "contentType", JStr("text"));
      var sender := Sender(if "from" in m then m["from"] else JNull);
      if content.None? || contentType.None? || sender.None? then None
      else
        Some(EmailFields(
          subject := subject,
          bodyContent := content.value,
          bodyType := contentType.value,
          sender := sender.value,
          receivedDatetime := if "receivedDateTime" in m then m["receivedDateTime"] else JStr(""),
          hasAttachments := if "hasAttachments" in m then m["hasAttachments"] else JBool(false)))
    case _ => None
  }

  /** An empty message gets every default. */
  lemma EmptyMessageDefaults()
    ensures ExtractEmailFields(EmptyObject)
         == Some(EmailFields(DefaultSubject, JStr(""), JStr("text"), UnknownSender, JStr(""), JBool(false)))
  {
  }

  /** A complete message: every field is read from where Graph puts it. */
  lemma CompleteMessageFields(subject: Value, content: Value, contentType: Value, address: Value,
                              received: Value, hasAttachments: Value)
    ensures var emailAddress := JObj(map["address" := address]);
      var message := JObj(map[
        "subject" := subject,
        "body" := JObj(map["content" := content, "contentType" := contentType]),
        "from" := JObj(map["emailAddress" := emailAddress]),
        "receivedDateTime" := received,
        "hasAttachments" := hasAttachments]);
      ExtractEmailFields(message) == Some(EmailFields(subject, content, contentType, address, received, hasAttachments))
  {
  }

  /**
   * Reading the fields fails exactly when a `.get` is applied to something
   * that is not a dictionary: the message, its body, a truthy sender, or a
   * truthy sender address.
   */
  lemma ExtractFailsIff(message: Value)
    ensures ExtractEmailFields(message).None? <==>
      || !message.JObj?
      || ("body" in message.fields && !message.fields["body"].JObj?)
      || ("from" in message.fields && Truthy(message.fields["from"]) && !message.fields["from"].JObj?)
      || ("from" in message.fields && message.fields["from"].JObj?
          && "emailAddress" in message.fields["from"].fields
          && Truthy(message.fields["from"].fields["emailAddress"])
          && !message.fields["from"].fields["emailAddress"].JObj?)
  {
  }

  // ---------------------------------------------------------------------
  // get_full_email

  /** What one Graph request gives back: its decoded JSON (JNull for Python's None), or an exception. */
  datatype Fetched = Returned(body: Value) | Raised

  /** The dictionary `get_full_email` returns. */
  datatype FullEmail = FullEmail(message: Value, attachments: Value)

  /** The result of `get_full_email`, with the endpoints it requested, in order. */
  datatype FullEmailOutcome = FullEmailOutcome(result: Option<FullEmail>, requests: seq<string>)

  function MessagePath(user: string, messageId: string): string {
    "/users/" + user + "/messages/" + messageId + "?$expand=attachments"
  }

  function AttachmentsPath(user: string, messageId: string): string {
    "/users/" + user + "/messages/" + messageId + "/attachments"
  }

  /** Whether the embedded attachments are missing or empty, so a second request is needed; None when the test raises. */
  function NeedsSecondRequest(message: Value): (r: Option<bool>)
    ensures message.JObj? ==> r == Some("attachments" !in message.fields || !Truthy(message.fields["attachments"]))
  {
    match Contains(message, "attachments")
    case None => None
    case Some(present) =>
      if !present then Some(true)
      else match Index(message, "attachments")
        case None => None
        case Some(a) => Some(!Truthy(a))
  }

  /** The attachments of the separate request: its `value` if present, else the empty list; None when that raises. */
  function AttachmentsFromResponse(response: Value): (r: Option<Value>)
    ensures !Truthy(response) ==> r == Some(JArr([]))
    ensures response.JObj? && "value" in response.fields ==> r == Some(response.fields["value"])
    ensures response.JObj? && "value" !in response.fields ==> r == Some(JArr([]))
  {
    if !Truthy(response) then Some(JArr([]))
    else match Contains(response, "value")
      case None => None
      case Some(present) =>
        if !present then Some(JArr([])) else Index(response, "value")
  }

  /** `get_full_email`: every exception inside its `try` is the `None` result. */
  function GetFullEmail(user: string, messageId: string, fetch: string -> Fetched): (r: FullEmailOutcome)
    ensures 1 <= |r.requests| <= 2 && r.requests[0] == MessagePath(user, messageId)
    ensures |r.requests| == 2 ==> r.requests[1] == AttachmentsPath(user, messageId)
    ensures r.result.Some? ==> fetch(MessagePath(user, messageId)) == Returned(r.result.value.message)
    ensures r.result.Some? ==> Truthy(r.result.value.message) && Sized(r.result.value.attachments)
    ensures fetch(MessagePath(user, messageId)).Raised? ==> r.result.None? && |r.requests| == 1
    ensures (fetch(MessagePath(user, messageId)).Returned? && Truthy(fetch(MessagePath(user, messageId)).body)
             && NeedsSecondRequest(fetch(MessagePath(user, messageId)).body) == Some(true)
             && fetch(AttachmentsPath(user, messageId)).Raised?)
            ==> r == FullEmailOutcome(None, [MessagePath(user, messageId), AttachmentsPath(user, messageId)])
  {
    var first := MessagePath(user, messageId);
    match fetch(first)
    case Raised => FullEmailOutcome(None, [first])
    case Returned(message) =>
      if !Truthy(message) then FullEmailOutcome(None, [first])
      else match NeedsSecondRequest(message)
        case None => FullEmailOutcome(None, [first])
        case Some(second) =>
          if second then
            var path := AttachmentsPath(user, messageId);
            match fetch(path)
            case Raised => FullEmailOutcome(None, [first, path])
            case Returned(response) =>
              match AttachmentsFromResponse(response)
              case None => FullEmailOutcome(None, [first, path])
              case Some(attachments) =>
                if Sized(attachments) then FullEmailOutcome(Some(FullEmail(message, attachments)), [first, path])
                else FullEmailOutcome(None, [first, path])
          else
            var attachments := message.fields["attachments"];
            if Sized(attachments) then FullEmailOutcome(Some(FullEmail(message, attachments)), [first])
            else FullEmailOutcome(None, [first])
  }

  /** A message that is missing (None or empty) gives no email, after one request. */
  lemma MissingMessageGivesNone(user: string, messageId: string, fetch: string -> Fetched)
    requires fetch(MessagePath(user, messageId)).Returned? && !Truthy(fetch(MessagePath(user, messageId)).body)
    ensures GetFullEmail(user, messageId, fetch) == FullEmailOutcome(None, [MessagePath(user, messageId)])
  {
  }

  /** A non-empty embedded attachment list is used as it is, and no second request is made. */
  lemma EmbeddedAttachmentsUsed(user: string, messageId: string, fetch: string -> Fetched, fields: map<string, Value>)
    requires fetch(MessagePath(user, messageId)) == Returned(JObj(fields))
    requires "attachments" in fields && fields["attachments"].JArr? && |fields["attachments"].items| > 0
    ensures GetFullEmail(user, messageId, fetch)
         == FullEmailOutcome(Some(FullEmail(JObj(fields), fields["attachments"])), [MessagePath(user, messageId)])
  {
  }

  /**
   * Without embedded attachments the separate endpoint is asked: its `value`
   * list is used when present, the empty list otherwise.
   */
  lemma SeparateAttachmentsUsed(user: string, messageId: string, fetch: string -> Fetched,
                                fields: map<string, Value>, response: map<string, Value>)
    requires |fields| > 0 && fetch(MessagePath(user, messageId)) == Returned(JObj(fields))
    requires "attachments" !in fields || !Truthy(fields["attachments"])
    requires fetch(AttachmentsPath(user, messageId)) == Returned(JObj(response))
    requires "value" in response ==> response["value"].JArr?
    ensures var expected := if "value" in response then response["value"] else JArr([]);
      GetFullEmail(user, messageId, fetch)
        == FullEmailOutcome(Some(FullEmail(JObj(fields), expected)),
                            [MessagePath(user, messageId), AttachmentsPath(user, messageId)])
  {
  }
}
