/**
 * The Telegram Bot API as the dashboard sees it: the requests it sends (`telegramCall`), how a reply
 * becomes a message id, a tolerated "not modified", or an error, and the text tests it applies to
 * error messages and to a pinned message.
 *
 * The network is an oracle: a `Transport` is built from the list of replies the API will give, and the
 * k-th call receives the k-th reply (an exhausted list answers with a failure).
 */
module Telegram {
  import opened Wrappers
  import opened Text

  /** The API methods the dashboard calls, with the fields that vary between calls. */
  datatype Request =
    | SendMessage(text: string)
    | SendPhoto(photo: string, caption: string)
    | EditMessageMedia(messageId: int, photo: string, caption: string)
    | EditMessageCaption(messageId: int, caption: string)
    | EditMessageText(messageId: int, text: string)
    | PinChatMessage(messageId: int)
    | UnpinChatMessage(messageId: int)

  function MethodName(req: Request): string {
    match req
    case SendMessage(_) => "sendMessage"
    case SendPhoto(_, _) => "sendPhoto"
    case EditMessageMedia(_, _, _) => "editMessageMedia"
    case EditMessageCaption(_, _) => "editMessageCaption"
    case EditMessageText(_, _) => "editMessageText"
    case PinChatMessage(_) => "pinChatMessage"
    case UnpinChatMessage(_) => "unpinChatMessage"
  }

  /**
   * What the API answers: success with the message id of the message concerned, or failure with its
   * `description` ("" when the reply carried none, or when the request itself failed without a message).
   */
  datatype Outcome = Delivered(messageId: int) | Failed(description: string)

  /** What `telegramCall` hands back to its caller: a value (`null` is `None`), or a thrown error. */
  datatype CallResult = Returned(id: Option<int>) | Threw(message: string)

  const NotModified := "message is not modified"

  /** The error text of a failed reply: its description, else `Telegram API error: <method>`. */
  function ErrorText(description: string, apiMethod: string): string {
    if description != [] then description else "Telegram API error: " + apiMethod
  }

  /** `telegramCall` after the reply is in: success, a tolerated "not modified", or an error to throw. */
  function Classify(o: Outcome, apiMethod: string, allowNotModified: bool): CallResult {
    match o
    case Delivered(id) => Returned(Some(id))
    case Failed(description) =>
      var desc := ErrorText(description, apiMethod);
      if allowNotModified && Contains(desc, NotModified) then Returned(None) else Threw(desc)
  }

  /**
   * `telegramCall` without `allowNotModified`: the message id it returns, or the error it throws; it never
   * returns `null` after a failure.
   */
  function Sent(o: Outcome, apiMethod: string): (r: Result<int, string>)
    ensures Classify(o, apiMethod, false) == (if r.Ok? then Returned(Some(r.value)) else Threw(r.error))
  {
    match o
    case Delivered(id) => Ok(id)
    case Failed(description) => Err(ErrorText(description, apiMethod))
  }

  /** The reply to the k-th call. */
  function ReplyAt(replies: seq<Outcome>, k: nat): Outcome {
    if k < |replies| then replies[k] else Failed([])
  }

  /** The API endpoint of one chat: the replies it will give and the requests sent so far. */
  class Transport {
    const replies: seq<Outcome>
    var sent: seq<Request>

    constructor (replies: seq<Outcome>)
      ensures this.replies == replies && sent == []
    {
      this.replies := replies;
      sent := [];
    }

    /** `telegramCall(token, method, body, { allowNotModified })` */
    method Call(req: Request, allowNotModified: bool) returns (r: CallResult)
      modifies this
      ensures sent == old(sent) + [req]
      ensures r == Classify(ReplyAt(replies, |old(sent)|), MethodName(req), allowNotModified)
    {
      r := Classify(ReplyAt(replies, |sent|), MethodName(req), allowNotModified);
      sent := sent + [req];
    }
  }

  /**
   * A call succeeds exactly when the API delivered, or when "not modified" is tolerated and the error
   * says so; an error thrown always has a message, the API's own when it gave one.
   */
  lemma ClassifyOutcome(o: Outcome, apiMethod: string, allowNotModified: bool)
    ensures var r := Classify(o, apiMethod, allowNotModified);
      && (r.Returned? <==>
            o.Delivered? || (allowNotModified && Contains(ErrorText(o.description, apiMethod), NotModified)))
      && (o.Delivered? ==> r == Returned(Some(o.messageId)))
      && (r.Threw? ==> r.message != [] && (o.description != [] ==> r.message == o.description))
  {
  }

  // ---------------------------------------------------------------------------------------------
  // error and message tests

  /** `isParseEntityError`: the lower-cased message mentions entity parsing or HTML. */
  predicate IsParseEntityError(msg: string) {
    var m := ToLower(msg);
    Contains(m, "can't parse entities") || Contains(m, "parse entities") || Contains(m, "entity") || Contains(m, "html")
  }

  /** The first test of `isParseEntityError` adds nothing: a message that passes it passes the second. */
  lemma {:induction false} ParseEntitiesSubsumed(m: string)
    requires Contains(m, "can't parse entities")
    ensures Contains(m, "parse entities")
    decreases |m|
  {
    var long := "can't parse entities";
    if StartsWith(m, long) {
      assert m[6..20] == long[6..20] == "parse entities";
      ContainsAt(m, "parse entities", 6);
    } else {
      ParseEntitiesSubsumed(m[1..]);
    }
  }

  /** `looksLikeDashboard`: the text has the board's title and a show marker. */
  predicate LooksLikeDashboard(text: string) {
    Contains(text, "今日电视剧更新") && Contains(text, "📺")
  }

  /** The chat's pinned message, as `getChat` reports it. */
  datatype Pinned = Pinned(messageId: int, text: Option<string>, caption: Option<string>)

  datatype Source = FromText | FromCaption

  /** `extractPinnedTextOrCaption`: the text if it is not blank, else the caption if it is not blank. */
  function ExtractPinned(p: Pinned): (r: Option<(Source, string)>)
    ensures r.Some? && r.value.0 == FromText <==> p.text.Some? && Trim(p.text.value) != []
    ensures r.Some? && r.value.0 == FromCaption <==>
      (p.text.None? || Trim(p.text.value) == []) && p.caption.Some? && Trim(p.caption.value) != []
    ensures r.Some? ==> Trim(r.value.1) != []
    ensures r.Some? && r.value.0 == FromText ==> r.value.1 == p.text.value
    ensures r.Some? && r.value.0 == FromCaption ==> r.value.1 == p.caption.value
  {
    if p.text.Some? && Trim(p.text.value) != [] then Some((FromText, p.text.value))
    else if p.caption.Some? && Trim(p.caption.value) != [] then Some((FromCaption, p.caption.value))
    else None
  }
}
