/** The Telegram publisher: it sends the rendered message to a chat through
    the Bot API, optionally into a forum topic. The rendered message and the
    network reply are inputs. */
module TelegramPublishing {
  import opened Wrappers
  import opened Text
  import opened Http
  import opened Posts

  const MaxMessageBytes: nat := 4096

  datatype TelegramPublisher = TelegramPublisher(id: string, botToken: string, chatId: string,
                                                 parseMode: Option<string>, messageThreadId: Option<string>,
                                                 template: string)

  /** The `sendMessage` payload; link previews are always enabled. */
  datatype Payload = Payload(chatId: string, text: string, parseMode: Option<string>,
                             disableWebPagePreview: bool, messageThreadId: Option<int>)

  datatype SendMessage = SendMessage(url: string, payload: Payload)

  /** The reply: a transport error, or a status, the body text and, when the
      body decodes as JSON, the text of its `result.message_id` value
      (`null` when absent). */
  datatype TelegramReply = SendError(msg: string) | Response(status: int, body: string, messageId: Result<string>)

  /** The topic a configured `message_thread_id` selects: one that parses as
      a positive 64-bit integer; anything else is ignored. */
  function ThreadId(configured: Option<string>): (t: Option<int>)
    ensures t.Some? ==> configured.Some? && 0 < t.value <= I64Max && ParseI64(configured.value) == t
    ensures configured.Some? && ParseI64(configured.value).Some? && ParseI64(configured.value).value > 0 ==> t.Some?
  {
    match configured
    case None => None
    case Some(text) =>
      match ParseI64(text)
      case Some(v) => if v > 0 then Some(v) else None
      case None => None
  }

  /** Every topic id the Bot API accepts, written in decimal, is selected. */
  lemma ThreadIdOfDecimal(n: nat)
    requires 0 < n <= I64Max
    ensures ThreadId(Some(DecimalString(n))) == Some(n)
  {
    ParseI64OfDecimal(n);
  }

  /** The payload as `publish` builds it: the base fields, then the topic id
      added when it is valid. */
  method BuildPayload(p: TelegramPublisher, message: string) returns (payload: Payload)
    ensures payload == Payload(p.chatId, message, p.parseMode, false, ThreadId(p.messageThreadId))
  {
    payload := Payload(p.chatId, message, p.parseMode, false, None);
    if p.messageThreadId.Some? {
      var parsed := ParseI64(p.messageThreadId.value);
      if parsed.Some? && parsed.value > 0 {
        payload := payload.(messageThreadId := parsed);
      }
    }
  }

  /** The request `publish` sends for a message, if it is short enough: a
      message over 4096 bytes is refused before any request. */
  function Request(p: TelegramPublisher, message: string): (r: Result<SendMessage>)
    ensures r.Err? <==> Utf8Len(message) > MaxMessageBytes
    ensures r.Ok? ==> r.value.payload.text == message && r.value.payload.messageThreadId == ThreadId(p.messageThreadId)
  {
    if Utf8Len(message) > MaxMessageBytes then
      Err("Message too long for Telegram: " + DecimalString(Utf8Len(message)) + " characters (max 4096)")
    else
      Ok(SendMessage("https://api.telegram.org/bot" + p.botToken + "/sendMessage",
                     Payload(p.chatId, message, p.parseMode, false, ThreadId(p.messageThreadId))))
  }

  /** `publish`: render, check the length, send; the confirmation names the
      message id. Returns the result and the request sent, if any. */
  method Publish(p: TelegramPublisher, post: Post, rendered: Result<string>, net: SendMessage -> TelegramReply)
    returns (r: Result<string>, sent: Option<SendMessage>)
    ensures rendered.Err? ==> r == Err(rendered.msg) && sent.None?
    ensures rendered.Ok? && Utf8Len(rendered.value) > MaxMessageBytes ==> r.Err? && sent.None?
    ensures rendered.Ok? && Utf8Len(rendered.value) <= MaxMessageBytes ==> sent == Some(Request(p, rendered.value).value)
    ensures r.Ok? <==> sent.Some? && net(sent.value).Response? && IsSuccess(net(sent.value).status)
                       && net(sent.value).messageId.Ok?
    ensures r.Ok? ==> r.value == "Published to Telegram: " + net(sent.value).messageId.value
  {
    if rendered.Err? {
      return Err(rendered.msg), None;
    }
    var message := rendered.value;
    if Utf8Len(message) > MaxMessageBytes {
      return Err("Message too long for Telegram: " + DecimalString(Utf8Len(message)) + " characters (max 4096)"), None;
    }
    var payload := BuildPayload(p, message);
    var request := SendMessage("https://api.telegram.org/bot" + p.botToken + "/sendMessage", payload);
    sent := Some(request);
    var reply := net(request);
    if reply.SendError? {
      r := Err(reply.msg);
    } else if !IsSuccess(reply.status) {
      r := Err("Failed to publish to Telegram: " + StatusText(reply.status) + " - " + reply.body);
    } else if reply.messageId.Err? {
      r := Err(reply.messageId.msg);
    } else {
      r := Ok("Published to Telegram: " + reply.messageId.value);
    }
  }
}
