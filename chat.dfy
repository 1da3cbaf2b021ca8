/**
 * The chat session of js/main.js: the history and busy flag of `AppState`, the
 * send cycle of `sendMessage`, `addMessageToChat`, `clearChat` and the
 * localStorage snapshot. The clock, the random user id, the user agent and the
 * webhook's outcome are inputs; JSON encoding and decoding are abstract
 * functions.
 */
module Chat {
  import opened Wrappers
  import opened JsText
  import opened Webhook

  datatype Sender = User | Bot

  /** One history record `{sender, message, timestamp}`; the timestamp is the ISO text of a `Date`. */
  datatype ChatEntry = ChatEntry(sender: Sender, message: string, timestamp: string)

  /** The `context` of a request. */
  datatype RequestContext = RequestContext(previousMessages: seq<ChatEntry>, userAgent: string, platform: string)

  /** The JSON body POSTed to the webhook. */
  datatype Payload = Payload(message: string, userId: string, timestamp: string, sessionId: string, context: RequestContext)

  /** The inputs one send reads from the outside world: the three clock readings, the session token and the user agent. */
  datatype SendEnv = SendEnv(userStamp: string, requestStamp: string, sessionId: string, userAgent: string, replyStamp: string)

  /** `Array.prototype.slice(start)`: a negative start counts from the end, and is clamped to the bounds. */
  function SliceFrom<T>(s: seq<T>, start: int): (r: seq<T>) {
    var from := if start < 0 then (if |s| + start < 0 then 0 else |s| + start)
                else (if start > |s| then |s| else start);
    s[from..]
  }

  /** `chatHistory.slice(-5)`: the last min(5, |history|) entries, oldest first. */
  function ContextWindow(history: seq<ChatEntry>): (w: seq<ChatEntry>)
    ensures |w| == if |history| < 5 then |history| else 5
    ensures w == history[|history| - |w|..]
  {
    SliceFrom(history, -5)
  }

  /** The send path goes ahead only for non-blank input while no other send is in flight. */
  predicate SendAccepted(input: string, isTyping: bool) {
    Trim(input) != [] && !isTyping
  }

  function UserEntry(input: string, env: SendEnv): (e: ChatEntry) {
    ChatEntry(User, Trim(input), env.userStamp)
  }

  /**
   * The request body built by `sendToWebhook` from the history as it is when
   * the call is made: the message and user id as given, and as context the
   * newest min(5, |history|) entries in order, from the web platform.
   */
  function BuildPayload(message: string, userId: string, env: SendEnv, history: seq<ChatEntry>): (p: Payload)
    ensures p.message == message && p.userId == userId
    ensures p.timestamp == env.requestStamp && p.sessionId == env.sessionId
    ensures var w := p.context.previousMessages;
      |w| == (if |history| < 5 then |history| else 5) && w == history[|history| - |w|..]
    ensures p.context.userAgent == env.userAgent && p.context.platform == "web"
  {
    Payload(message, userId, env.requestStamp, env.sessionId,
            RequestContext(ContextWindow(history), env.userAgent, "web"))
  }

  /** The entries the end of a send appends: one bot entry on success, none on any failure. */
  function ReplyEntries(outcome: Outcome, env: SendEnv): (es: seq<ChatEntry>)
    ensures |es| <= 1
    ensures es != [] <==> SendToWebhook(outcome).Success?
    ensures es != [] ==> es[0].sender == Bot && es[0].timestamp == env.replyStamp
  {
    match SendToWebhook(outcome)
    case Success(data) => [ChatEntry(Bot, ReplyText(data), env.replyStamp)]
    case Failure(_) => []
  }

  /** The history after an accepted send. */
  function HistoryAfterSend(history: seq<ChatEntry>, input: string, env: SendEnv, outcome: Outcome): (h: seq<ChatEntry>) {
    history + [UserEntry(input, env)] + ReplyEntries(outcome, env)
  }

  /**
   * A send only appends: the old history is kept as a prefix, the trimmed
   * user text comes next, and at most one bot entry follows it.
   */
  lemma SendOnlyAppends(history: seq<ChatEntry>, input: string, env: SendEnv, outcome: Outcome)
    ensures var after := HistoryAfterSend(history, input, env, outcome);
      |history| + 1 <= |after| <= |history| + 2
      && after[..|history|] == history
      && after[|history|] == ChatEntry(User, Trim(input), env.userStamp)
      && (|after| == |history| + 2 ==> after[|history| + 1].sender == Bot)
  {
  }

  /** On a transport failure or a non-2xx status no bot entry is appended: the history ends with the user entry. */
  lemma SendFailureKeepsUserLast(history: seq<ChatEntry>, input: string, env: SendEnv, outcome: Outcome)
    requires outcome.NetworkError? || !IsOk(outcome.status)
    ensures HistoryAfterSend(history, input, env, outcome) == history + [UserEntry(input, env)]
  {
  }

  /**
   * On a 2xx status the bot entry is the trimmed body, or the fallback text
   * when the trimmed body is empty (by `TrimEmptyIff`, when the body is all
   * white space).
   */
  lemma SendSuccessReply(history: seq<ChatEntry>, input: string, env: SendEnv,
                         status: int, statusText: string, body: string)
    requires IsOk(status)
    ensures HistoryAfterSend(history, input, env, Response(status, statusText, body))
         == history + [UserEntry(input, env),
                       ChatEntry(Bot, if Trim(body) == [] then FallbackReply else Trim(body), env.replyStamp)]
  {
    var bot := ChatEntry(Bot, if Trim(body) == [] then FallbackReply else Trim(body), env.replyStamp);
    OkReplyEntries(status, statusText, body, env);
    AppendTwo(history, UserEntry(input, env), bot);
  }

  /** A 2xx reply appends exactly one bot entry: the trimmed body, or the fallback text when that is empty. */
  lemma OkReplyEntries(status: int, statusText: string, body: string, env: SendEnv)
    requires IsOk(status)
    ensures ReplyEntries(Response(status, statusText, body), env)
         == [ChatEntry(Bot, if Trim(body) == [] then FallbackReply else Trim(body), env.replyStamp)]
  {
    var data := ResponseData(Trim(body), body, "text");
    assert SendToWebhook(Response(status, statusText, body)) == Success(data);
  }

  lemma AppendTwo<T>(s: seq<T>, x: T, y: T)
    ensures s + [x] + [y] == s + [x, y]
  {
  }

  /**
   * The user entry is appended before the request is built, so the context
   * sent is the last min(5, |history| + 1) entries in order, and its final
   * element is the current user message.
   */
  lemma ContextEndsWithUserEntry(history: seq<ChatEntry>, user: ChatEntry)
    ensures var w := ContextWindow(history + [user]);
      |w| == (if |history| < 4 then |history| + 1 else 5)
      && w[|w| - 1] == user
      && w[..|w| - 1] == history[|history| + 1 - |w|..]
  {
    var h := history + [user];
    var w := ContextWindow(h);
    assert w[..|w| - 1] == h[|h| - |w|..|h| - 1];
  }

  /** `AppState` with the storage slot `healthapp_chat_history`. */
  class ChatSession {
    var chatHistory: seq<ChatEntry>
    var isTyping: bool
    /** The stored text of the history, or None when nothing is stored. */
    var storage: Option<string>
    /** `'user_' + ` a random suffix, fixed for the page's lifetime. */
    const currentUser: string
    /** `JSON.stringify` and `JSON.parse` of a history (None: the parse throws). */
    const encode: seq<ChatEntry> -> string
    const decode: string -> Option<seq<ChatEntry>>

    /** A fresh page: empty history, not busy; `stored` is what an earlier page left in storage. */
    constructor (userSuffix: string, encode: seq<ChatEntry> -> string, decode: string -> Option<seq<ChatEntry>>,
                 stored: Option<string>)
      ensures chatHistory == [] && !isTyping && storage == stored
      ensures currentUser == "user_" + userSuffix && this.encode == encode && this.decode == decode
    {
      chatHistory := [];
      isTyping := false;
      storage := stored;
      currentUser := "user_" + userSuffix;
      this.encode := encode;
      this.decode := decode;
    }

    /** `saveChatHistory`: the slot holds the encoding of the whole current history. */
    method SaveChatHistory()
      modifies this
      ensures storage == Some(encode(chatHistory))
      ensures chatHistory == old(chatHistory) && isTyping == old(isTyping)
    {
      storage := Some(encode(chatHistory));
    }

    /**
     * `loadChatHistory`: a stored non-empty text replaces the history by its
     * decoding, or by the empty history when it does not decode; without one
     * the history is kept.
     */
    method LoadChatHistory()
      modifies this
      ensures storage.Some? && storage.value != [] ==>
        chatHistory == match decode(storage.value) case Some(h) => h case None => []
      ensures !(storage.Some? && storage.value != []) ==> chatHistory == old(chatHistory)
      ensures storage == old(storage) && isTyping == old(isTyping)
    {
      if storage.Some? && storage.value != [] {
        match decode(storage.value)
        case Some(h) => chatHistory := h;
        case None => chatHistory := [];
      }
    }

    /** The history part of `addMessageToChat`: one entry at the end, then a save. */
    method AddMessageToChat(sender: Sender, message: string, timestamp: string)
      modifies this
      ensures chatHistory == old(chatHistory) + [ChatEntry(sender, message, timestamp)]
      ensures storage == Some(encode(chatHistory))
      ensures isTyping == old(isTyping)
    {
      chatHistory := chatHistory + [ChatEntry(sender, message, timestamp)];
      SaveChatHistory();
    }

    /** `clearChat`, with the answer of the confirmation dialog as `confirmed`. */
    method ClearChat(confirmed: bool)
      modifies this
      ensures confirmed ==> chatHistory == [] && storage == Some(encode([]))
      ensures !confirmed ==> chatHistory == old(chatHistory) && storage == old(storage)
      ensures isTyping == old(isTyping)
    {
      if confirmed {
        chatHistory := [];
        SaveChatHistory();
      }
    }

    /** The state part of `setTypingState`. */
    method SetTypingState(typing: bool)
      modifies this
      ensures isTyping == typing
      ensures chatHistory == old(chatHistory) && storage == old(storage)
    {
      isTyping := typing;
    }

    /**
     * `sendMessage` up to its first `await`: refuse blank input or a send already in
     * flight; otherwise raise the busy flag, append the trimmed user text and
     * build the request from the history that now ends with it.
     */
    method BeginSend(input: string, env: SendEnv) returns (sent: Option<Payload>)
      modifies this
      ensures !SendAccepted(input, old(isTyping)) ==>
        sent == None && chatHistory == old(chatHistory) && isTyping == old(isTyping) && storage == old(storage)
      ensures SendAccepted(input, old(isTyping)) ==>
        && isTyping
        && chatHistory == old(chatHistory) + [UserEntry(input, env)]
        && storage == Some(encode(chatHistory))
        && sent == Some(BuildPayload(Trim(input), currentUser, env, chatHistory))
    {
      var message := Trim(input);
      if message == [] || isTyping {
        return None;
      }
      SetTypingState(true);
      AddMessageToChat(User, message, env.userStamp);
      sent := Some(BuildPayload(message, currentUser, env, chatHistory));
    }

    /**
     * `sendMessage` after its first `await`: on success append the bot text chosen
     * by `handleWebhookResponse`; on failure append nothing (the error bubble
     * is not history); in every case clear the busy flag.
     */
    method FinishSend(outcome: Outcome, env: SendEnv)
      modifies this
      ensures !isTyping
      ensures chatHistory == old(chatHistory) + ReplyEntries(outcome, env)
      ensures storage == if ReplyEntries(outcome, env) == [] then old(storage) else Some(encode(chatHistory))
    {
      match SendToWebhook(outcome) {
        case Success(data) =>
          AddMessageToChat(Bot, HandleWebhookResponse(data), env.replyStamp);
        case Failure(_) =>
      }
      SetTypingState(false);
    }

    /** One whole `sendMessage`, with the webhook's outcome as an input. */
    method SendMessage(input: string, env: SendEnv, outcome: Outcome) returns (sent: Option<Payload>)
      modifies this
      ensures !SendAccepted(input, old(isTyping)) ==>
        sent == None && chatHistory == old(chatHistory) && isTyping == old(isTyping) && storage == old(storage)
      ensures SendAccepted(input, old(isTyping)) ==>
        && !isTyping
        && chatHistory == HistoryAfterSend(old(chatHistory), input, env, outcome)
        && storage == Some(encode(chatHistory))
        && sent == Some(BuildPayload(Trim(input), currentUser, env, old(chatHistory) + [UserEntry(input, env)]))
    {
      sent := BeginSend(input, env);
      if sent.Some? {
        ghost var begun := chatHistory;
        FinishSend(outcome, env);
        assert ReplyEntries(outcome, env) == [] ==> chatHistory == begun;
      }
    }
  }
}
