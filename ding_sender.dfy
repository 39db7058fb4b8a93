/**
 * The DingTalk notification stage: it reads the message content from the state, picks the
 * robot's access token and webhook URL, posts the markdown envelope, and reports the outcome
 * under its result key. The HTTP post itself is a parameter.
 */
module DingSender {
  import opened Wrappers
  import opened Text
  import opened StateBag

  const WebhookUrlPrefix: string := "https://oapi.dingtalk.com/robot/send?access_token="
  const DefaultResultKey: string := "dingding_message_result"
  const DefaultTitle: string := "Notification"
  const EmptyContentText: string := "Message content is empty or not found in state with key: "
  const SendFailedText: string := "Failed to send DingDing message: "

  /** The node's final settings; a `None` is a Java null. */
  datatype Sender = Sender(
    accessToken: Option<string>,
    accessTokenKey: Option<string>,
    messageContentKey: Option<string>,
    resultKey: Option<string>,
    title: Option<string>,
    customWebhookUrl: Option<string>)

  /** What one post returns: the response body, or the message of the exception it raised. */
  datatype Outcome = Response(body: string) | Failure(message: Option<string>)

  /** The outside world of the node: the post, `toString` of a token value that is not a
      string, and the message of the exception raised by `toString()` on null. */
  datatype Network = Network(post: (string, Value) -> Outcome, show: Value -> string, nullMessage: Option<string>)

  /** Java's `"..." + s` for a possibly null string. */
  function Shown(s: Option<string>): string {
    if s.Some? then s.value else "null"
  }

  /** The content: an assistant message gives its text, a string itself; absence is null, and
      a value of any other kind fails the cast to `String`. */
  function MessageContent(sender: Sender, bag: Bag): Result<Option<string>> {
    if sender.messageContentKey.None? then Ok(None)
    else match ValueOf(bag, sender.messageContentKey.value)
      case None => Ok(None)
      case Some(v) =>
        if v.Message? then Ok(Some(v.text))
        else if v.Str? then Ok(Some(v.s))
        else Err("ClassCastException")
  }

  /** The token object: the state's value at `accessTokenKey` when that key has text, falling
      back to the configured token. */
  function TokenChoice(sender: Sender, bag: Bag): Option<Value> {
    var configured := if sender.accessToken.Some? then Some(Str(sender.accessToken.value)) else None;
    if HasText(sender.accessTokenKey) then
      match ValueOf(bag, sender.accessTokenKey.value)
      case Some(v) => Some(v)
      case None => configured
    else configured
  }

  /** `accessToken.toString()`; none stands for the null pointer it is called on. */
  function TokenText(net: Network, token: Option<Value>): Option<string> {
    match token
    case None => None
    case Some(v) => if v.Str? then Some(v.s) else Some(net.show(v))
  }

  /** The custom webhook URL when it has length, otherwise the template filled with the token. */
  function WebhookUrl(sender: Sender, token: string): (url: string)
    ensures HasLength(sender.customWebhookUrl) ==> url == sender.customWebhookUrl.value
    ensures !HasLength(sender.customWebhookUrl) ==>
      StartsWith(url, WebhookUrlPrefix) && url[|WebhookUrlPrefix|..] == token
  {
    if HasLength(sender.customWebhookUrl) then sender.customWebhookUrl.value
    else WebhookUrlPrefix + token
  }

  /** The title as the envelope carries it. */
  function TitleValue(title: Option<string>): Value {
    if title.Some? then Str(title.value) else Null
  }

  /** `createRequestBody`: the envelope map, filled entry by entry. */
  method CreateRequestBody(title: Option<string>, content: string) returns (body: map<string, Value>)
    ensures body.Keys == {"msgtype", "markdown"}
    ensures body["msgtype"] == Str("markdown")
    ensures body["markdown"].Dict?
    ensures body["markdown"].entries.Keys == {"title", "text"}
    ensures body["markdown"].entries["title"] == TitleValue(title)
    ensures body["markdown"].entries["text"] == Str(content)
  {
    body := map[];
    body := body["msgtype" := Str("markdown")];
    var markdown: map<string, Value> := map[];
    markdown := markdown["title" := TitleValue(title)];
    markdown := markdown["text" := Str(content)];
    body := body["markdown" := Dict(markdown)];
  }

  /** The envelope `{msgtype: "markdown", markdown: {title, text}}` as a value. */
  function Envelope(title: Option<string>, content: string): Value {
    Dict(map["msgtype" := Str("markdown"), "markdown" := Dict(map["title" := TitleValue(title), "text" := Str(content)])])
  }

  /** The post the node makes, if any: a webhook URL and the envelope. None when the content
      is missing or empty, when it fails the cast, or when the token is null. A null result
      key does not stop the post: the exception comes only when the result is stored. */
  function Request(sender: Sender, net: Network, bag: Bag): (r: Option<(string, Value)>)
    ensures r.Some? <==>
      && MessageContent(sender, bag).Ok?
      && HasLength(MessageContent(sender, bag).value)
      && TokenText(net, TokenChoice(sender, bag)).Some?
  {
    match MessageContent(sender, bag)
    case Err(_) => None
    case Ok(content) =>
      if !HasLength(content) then None
      else match TokenText(net, TokenChoice(sender, bag))
        case None => None
        case Some(token) => Some((WebhookUrl(sender, token), Envelope(sender.title, content.value)))
  }

  /** The text reported for a send: the response body, or the failure message. */
  function SendReport(sender: Sender, net: Network, bag: Bag, content: string): string {
    match TokenText(net, TokenChoice(sender, bag))
    case None => SendFailedText + Shown(net.nullMessage)
    case Some(token) =>
      match net.post(WebhookUrl(sender, token), Envelope(sender.title, content))
      case Response(b) => b
      case Failure(m) => SendFailedText + Shown(m)
  }

  /** `apply`: a one-key update under `resultKey`, or the exception that escapes. */
  function Apply(sender: Sender, net: Network, bag: Bag): Result<Bag> {
    match MessageContent(sender, bag)
    case Err(e) => Err(e)
    case Ok(content) =>
      if sender.resultKey.None? then Err("NullPointerException")
      else if !HasLength(content) then
        Ok(map[sender.resultKey.value := Str(EmptyContentText + Shown(sender.messageContentKey))])
      else Ok(map[sender.resultKey.value := Str(SendReport(sender, net, bag, content.value))])
  }

  /**
   * Every update holds exactly the result key. Only a content value of the wrong kind or a
   * null result key escapes as an exception; a failed send never does.
   */
  lemma ApplyFacts(sender: Sender, net: Network, bag: Bag)
    ensures Apply(sender, net, bag).Ok? ==>
      sender.resultKey.Some? && Apply(sender, net, bag).value.Keys == {sender.resultKey.value}
    ensures Apply(sender, net, bag).Err? <==> MessageContent(sender, bag).Err? || sender.resultKey.None?
  {
  }

  /** Absent or empty content reports the error naming the content key, and nothing is posted. */
  lemma EmptyContentFacts(sender: Sender, net: Network, bag: Bag)
    requires sender.resultKey.Some?
    requires MessageContent(sender, bag) == Ok(None) || MessageContent(sender, bag) == Ok(Some(""))
    ensures Apply(sender, net, bag) ==
      Ok(map[sender.resultKey.value := Str(EmptyContentText + Shown(sender.messageContentKey))])
    ensures Request(sender, net, bag).None?
  {
  }

  /** An assistant message is unwrapped to its text and a string is taken as is. */
  lemma ContentFacts(sender: Sender, bag: Bag)
    requires sender.messageContentKey.Some?
    ensures forall t :: ValueOf(bag, sender.messageContentKey.value) == Some(Message(t)) ==> MessageContent(sender, bag) == Ok(Some(t))
    ensures forall s :: ValueOf(bag, sender.messageContentKey.value) == Some(Str(s)) ==> MessageContent(sender, bag) == Ok(Some(s))
    ensures ValueOf(bag, sender.messageContentKey.value).None? ==> MessageContent(sender, bag) == Ok(None)
  {
  }

  /**
   * The token is the state's value at `accessTokenKey` when that key has text and a value is
   * there; in every other case it is the configured token.
   */
  lemma TokenFacts(sender: Sender, bag: Bag)
    ensures HasText(sender.accessTokenKey) && ValueOf(bag, sender.accessTokenKey.value).Some? ==>
      TokenChoice(sender, bag) == ValueOf(bag, sender.accessTokenKey.value)
    ensures !(HasText(sender.accessTokenKey) && ValueOf(bag, sender.accessTokenKey.value).Some?) ==>
      TokenChoice(sender, bag) == (if sender.accessToken.Some? then Some(Str(sender.accessToken.value)) else None)
  {
  }

  /**
   * With usable content, the node posts exactly the markdown envelope of that content to the
   * chosen URL and reports the response body, or the failure message; it never re-raises. A
   * null result key still lets the post go out, and the exception comes after it.
   */
  lemma SendFacts(sender: Sender, net: Network, bag: Bag, content: string, token: string)
    requires MessageContent(sender, bag) == Ok(Some(content)) && content != ""
    requires TokenText(net, TokenChoice(sender, bag)) == Some(token)
    ensures Request(sender, net, bag) == Some((WebhookUrl(sender, token), Envelope(sender.title, content)))
    ensures sender.resultKey.Some? ==> Apply(sender, net, bag) == Ok(map[sender.resultKey.value :=
      Str(match net.post(WebhookUrl(sender, token), Envelope(sender.title, content))
          case Response(b) => b
          case Failure(m) => SendFailedText + Shown(m))])
    ensures sender.resultKey.None? ==> Apply(sender, net, bag) == Err("NullPointerException")
  {
  }

  /** A null token fails inside the guarded block: reported, with nothing posted. */
  lemma NullTokenFacts(sender: Sender, net: Network, bag: Bag, content: string)
    requires sender.resultKey.Some?
    requires MessageContent(sender, bag) == Ok(Some(content)) && content != ""
    requires TokenChoice(sender, bag).None?
    ensures Request(sender, net, bag).None?
    ensures Apply(sender, net, bag) == Ok(map[sender.resultKey.value := Str(SendFailedText + Shown(net.nullMessage))])
  {
  }

  /** The node's builder: every setter overwrites one setting. */
  class Builder {
    var accessToken: Option<string>
    var accessTokenKey: Option<string>
    var messageContentKey: Option<string>
    var resultKey: Option<string>
    var title: Option<string>
    var customWebhookUrl: Option<string>

    constructor()
      ensures accessToken.None? && accessTokenKey.None? && messageContentKey.None? && customWebhookUrl.None?
      ensures resultKey == Some(DefaultResultKey) && title == Some(DefaultTitle)
    {
      accessToken := None;
      accessTokenKey := None;
      messageContentKey := None;
      resultKey := Some(DefaultResultKey);
      title := Some(DefaultTitle);
      customWebhookUrl := None;
    }

    function Settings(): Sender
      reads this
    {
      Sender(accessToken, accessTokenKey, messageContentKey, resultKey, title, customWebhookUrl)
    }

    method SetAccessToken(v: Option<string>)
      modifies this
      ensures Settings() == old(Settings()).(accessToken := v)
    {
      accessToken := v;
    }

    method SetAccessTokenKey(v: Option<string>)
      modifies this
      ensures Settings() == old(Settings()).(accessTokenKey := v)
    {
      accessTokenKey := v;
    }

    method SetMessageContentKey(v: Option<string>)
      modifies this
      ensures Settings() == old(Settings()).(messageContentKey := v)
    {
      messageContentKey := v;
    }

    method SetResultKey(v: Option<string>)
      modifies this
      ensures Settings() == old(Settings()).(resultKey := v)
    {
      resultKey := v;
    }

    method SetTitle(v: Option<string>)
      modifies this
      ensures Settings() == old(Settings()).(title := v)
    {
      title := v;
    }

    method SetCustomWebhookUrl(v: Option<string>)
      modifies this
      ensures Settings() == old(Settings()).(customWebhookUrl := v)
    {
      customWebhookUrl := v;
    }

    /** `build`: the node takes every setting unchanged. */
    method Build() returns (s: Sender)
      ensures s.accessToken == accessToken && s.accessTokenKey == accessTokenKey
      ensures s.messageContentKey == messageContentKey && s.resultKey == resultKey
      ensures s.title == title && s.customWebhookUrl == customWebhookUrl
    {
      s := Sender(accessToken, accessTokenKey, messageContentKey, resultKey, title, customWebhookUrl);
    }
  }

  /** A node built with only its content key set reports under "dingding_message_result",
      titles its messages "Notification" and posts to the templated URL. */
  method DefaultSender(contentKey: string) returns (s: Sender)
    ensures s.resultKey == Some(DefaultResultKey) && s.title == Some(DefaultTitle)
    ensures s.messageContentKey == Some(contentKey)
    ensures s.accessToken.None? && s.accessTokenKey.None? && s.customWebhookUrl.None?
  {
    var b := new Builder();
    b.SetMessageContentKey(Some(contentKey));
    s := b.Build();
  }
}
