/**
 * The webhook exchange of js/main.js with the network abstracted: the outcome
 * of the `fetch` call is an input, `sendToWebhook` turns it into reply data or
 * an error, and `handleWebhookResponse` decides which bot text is shown.
 */
module Webhook {
  import opened Wrappers
  import opened JsText
  import opened JsValues

  /** What one POST to the webhook produced: a transport failure, or a response with its body read as text. */
  datatype Outcome =
    | NetworkError(reason: string)
    | Response(status: int, statusText: string, body: string)

  /** The object `sendToWebhook` returns on success: `{message, raw_response, type}`. */
  datatype ResponseData = ResponseData(message: string, rawResponse: string, kind: string)

  /** What `sendToWebhook` throws: an HTTP error with its details, or the transport's own error. */
  datatype WebhookError =
    | HttpError(status: int, statusText: string, responseText: string)
    | TransportError(reason: string)

  /** `response.ok`. */
  predicate IsOk(status: int) {
    200 <= status <= 299
  }

  /**
   * The classification in `sendToWebhook`: a non-2xx status fails with the
   * status, status text and raw body; a 2xx status yields the trimmed body as
   * the message, keeps the untrimmed body, and is typed 'text'.
   */
  function SendToWebhook(outcome: Outcome): (r: Result<ResponseData, WebhookError>)
    ensures r.Success? <==> outcome.Response? && IsOk(outcome.status)
    ensures r.Success? ==>
      r.value.rawResponse == outcome.body && r.value.message == Trim(outcome.body) && r.value.kind == "text"
    ensures outcome.Response? && !IsOk(outcome.status) ==>
      r == Failure(HttpError(outcome.status, outcome.statusText, outcome.body))
    ensures outcome.NetworkError? ==> r == Failure(TransportError(outcome.reason))
  {
    match outcome
    case NetworkError(reason) => Failure(TransportError(reason))
    case Response(status, statusText, body) =>
      if !IsOk(status) then Failure(HttpError(status, statusText, body))
      else Success(ResponseData(Trim(body), body, "text"))
  }

  /** The text shown when no reply can be extracted. */
  const FallbackReply: string :=
    "I received your message and processed it successfully. The response format is shown above."

  /** The bot text a success shows: the reply message itself, or the fallback text when it is empty. */
  function ReplyText(data: ResponseData): (t: string)
    ensures t != []
    ensures t == data.message || t == FallbackReply
  {
    if data.message != [] then data.message else FallbackReply
  }

  /** The reply data as the JavaScript object `handleWebhookResponse` inspects. */
  function ToJs(data: ResponseData): (v: JsValue) {
    Object(map["message" := Str(data.message), "raw_response" := Str(data.rawResponse), "type" := Str(data.kind)])
  }

  /**
   * `handleWebhookResponse`: the text of the bot entry it appends. A
   * non-empty message is shown as it is; an empty one falls through to
   * `extractBotMessage`, finds nothing truthy and yields the fallback text,
   * so an empty bubble is never shown.
   */
  function HandleWebhookResponse(data: ResponseData): (text: string)
    ensures text == ReplyText(data)
    ensures text != []
  {
    var response := ToJs(data);
    if Member(response, "type") == Str("text") && Truthy(Member(response, "message")) then
      Member(response, "message").s
    else
      var bot := ExtractBotMessage(response);
      if !Truthy(bot) then FallbackReply
      else if bot.Str? then bot.s
      // A truthy non-string reply cannot come from the object `sendToWebhook`
      // builds; in the page it would make `processMessageText` throw, and the
      // catch of `handleWebhookResponse` would show an error bubble instead.
      else assert false; FallbackReply
  }

  /**
   * A 2xx reply whose body is not all white space is shown as its trimmed
   * body; one that is all white space (or empty) is shown as the fallback.
   */
  lemma OkReplyText(status: int, statusText: string, body: string)
    requires IsOk(status)
    ensures var r := SendToWebhook(Response(status, statusText, body));
      r.Success? && r.value.rawResponse == body
      && (!AllWhitespace(body) ==> ReplyText(r.value) == Trim(body))
      && (AllWhitespace(body) ==> ReplyText(r.value) == FallbackReply)
  {
    TrimEmptyIff(body);
  }
}
