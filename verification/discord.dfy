/**
 * Delivery of a message log to a Discord webhook (notify/discord.go): the
 * webhook URL check made before any network use, the message content built
 * from the log, and the reading of the webhook's answer. The JSON payload
 * `{"content": ...}` and the HTTP POST are the transport's business: the
 * model records the content posted and takes the POST's outcome as input.
 */
module Discord {
  import opened Wrappers
  import opened Text
  import opened Http
  import opened Notifier

  datatype Discord = Discord(webhookUrl: string, userId: string)

  const WebhookPrefix := "https://discord.com/api/webhooks/"
  const InvalidUrlError := "invalid Discord webhook URL"
  const Heading := "**Endfield Daily Check-in**\n"
  const NoContent := 204

  /** The URL, trimmed and lower-cased, starts with the Discord webhook prefix. */
  predicate ValidWebhookUrl(url: string)
  {
    WebhookPrefix <= ToLower(TrimSpace(url))
  }

  /** The mention of the user to ping, or nothing. */
  function Mention(userId: string): string
  {
    if userId != "" then "<@" + userId + ">\n" else ""
  }

  /** One log message as a line: `(LEVEL) text`. */
  function Line(m: Message): string
  {
    "(" + ToUpper(m.level) + ") " + m.text + "\n"
  }

  /** The two levels the log uses are tagged `(INFO)` and `(ERROR)`. */
  lemma LevelLines(text: string)
    ensures Line(Message(InfoLevel, text)) == "(INFO) " + text + "\n"
    ensures Line(Message(ErrorLevel, text)) == "(ERROR) " + text + "\n"
  {
    assert ToUpper(InfoLevel) == "INFO";
    assert ToUpper(ErrorLevel) == "ERROR";
  }

  /** The lines of all messages, in log order. */
  function Lines(ms: seq<Message>): string
  {
    Concat(seq(|ms|, i requires 0 <= i < |ms| => Line(ms[i])))
  }

  /** The posted content: the optional mention, the heading, then one line per message. */
  function Content(userId: string, ms: seq<Message>): string
  {
    Mention(userId) + Heading + Lines(ms)
  }

  /** The lines of a concatenated log are the concatenated lines: order is kept. */
  lemma LinesAppend(a: seq<Message>, b: seq<Message>)
    ensures Lines(a + b) == Lines(a) + Lines(b)
  {
    var la := seq(|a|, i requires 0 <= i < |a| => Line(a[i]));
    var lb := seq(|b|, i requires 0 <= i < |b| => Line(b[i]));
    assert seq(|a + b|, i requires 0 <= i < |a + b| => Line((a + b)[i])) == la + lb;
    ConcatAppend(la, lb);
  }

  /** The lines are exactly `Line(ms[0]) + ... + Line(ms[n-1])`: a one-message log gives one line. */
  lemma LinesSingle(m: Message)
    ensures Lines([m]) == Line(m)
  {
    assert seq(1, i requires 0 <= i < 1 => Line([m][i])) == [Line(m)];
    assert Concat([Line(m)]) == Concat([]) + Line(m);
  }

  /** The content starts with the mention `<@id>\n` exactly when a user id is configured. */
  lemma MentionFirst(userId: string, ms: seq<Message>)
    ensures "<@" + userId + ">\n" <= Content(userId, ms) <==> userId != ""
  {
    var c := Content(userId, ms);
    if userId == "" {
      assert c[0] == '*';
      assert ("<@" + userId + ">\n")[0] == '<';
    }
  }

  /** The heading sits right after the optional mention, and the lines follow it. */
  lemma HeadingAfterMention(userId: string, ms: seq<Message>)
    ensures var c := Content(userId, ms);
      var k := |Mention(userId)|;
      c[k..k + |Heading|] == Heading && c[k + |Heading|..] == Lines(ms)
  {
  }

  /** What Send reports once the POST has been made; never the invalid-URL error. */
  function DeliveryError(reply: Attempt): (r: Option<string>)
    ensures r == None <==> reply.Resp? && reply.status == NoContent
    ensures r != Some(InvalidUrlError)
  {
    match reply
    case NetErr(cause) => Some("discord webhook request failed: " + cause)
    case Resp(status, _) =>
      if status == NoContent then None
      else Some("discord webhook returned status " + IntToString(status))
  }

  /**
   * `Discord.Send`: refuses an invalid URL before any request is made; else
   * builds the content from the log (`posted`) and reports success exactly
   * when the webhook answers 204 No Content.
   */
  method Send(d: Discord, log: MessageLog, reply: Attempt) returns (err: Option<string>, ghost posted: Option<string>)
    ensures err == Some(InvalidUrlError) <==> !ValidWebhookUrl(d.webhookUrl)
    ensures !ValidWebhookUrl(d.webhookUrl) ==> posted == None
    ensures ValidWebhookUrl(d.webhookUrl) ==> posted == Some(Content(d.userId, log.messages))
    ensures ValidWebhookUrl(d.webhookUrl) ==>
      (err == None <==> reply.Resp? && reply.status == NoContent)
    ensures ValidWebhookUrl(d.webhookUrl) && reply.Resp? && reply.status != NoContent ==>
      err == Some("discord webhook returned status " + IntToString(reply.status))
    ensures ValidWebhookUrl(d.webhookUrl) && reply.NetErr? ==>
      err == Some("discord webhook request failed: " + reply.cause)
  {
    if !ValidWebhookUrl(d.webhookUrl) {
      return Some(InvalidUrlError), None;
    }
    var content := BuildContent(d.userId, log.messages);
    posted := Some(content);
    err := DeliveryError(reply);
  }

  /** The `strings.Builder` part of Send: mention, heading, then one line per message. */
  method BuildContent(userId: string, ms: seq<Message>) returns (b: string)
    ensures b == Content(userId, ms)
  {
    b := "";
    if userId != "" {
      b := b + "<@" + userId + ">\n";
    }
    b := b + Heading;
    b := WriteLines(b, ms);
  }

  /** The loop of Send: writes `(LEVEL) text` and a newline for each message, in log order. */
  method WriteLines(b0: string, ms: seq<Message>) returns (b: string)
    ensures b == b0 + Lines(ms)
  {
    b := b0;
    for i := 0 to |ms|
      invariant b == b0 + Lines(ms[..i])
    {
      var line := "(" + ToUpper(ms[i].level) + ") " + ms[i].text + "\n";
      assert line == Line(ms[i]);
      LinesStep(ms, i);
      b := b + line;
    }
    assert ms[..|ms|] == ms;
  }

  lemma LinesStep(ms: seq<Message>, i: nat)
    requires i < |ms|
    ensures Lines(ms[..i + 1]) == Lines(ms[..i]) + Line(ms[i])
  {
    assert ms[..i + 1] == ms[..i] + [ms[i]];
    LinesAppend(ms[..i], [ms[i]]);
    LinesSingle(ms[i]);
  }
}
