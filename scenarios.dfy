/**
 * Client code that exercises the session only through its contracts: the
 * busy guard, blank input, the two webhook scenarios, clearing, and the
 * storage round trip.
 */
module ChatScenarios {
  import opened Wrappers
  import opened JsText
  import opened MessageText
  import opened Webhook
  import opened Chat

  /** A send while another is in flight, and a send of blank text, change nothing. */
  method GuardScenarios(env: SendEnv, encode: seq<ChatEntry> -> string, decode: string -> Option<seq<ChatEntry>>,
                        input: string, blank: string, outcome: Outcome)
    requires AllWhitespace(blank)
  {
    var s := new ChatSession("k3x9q0a1z", encode, decode, None);
    s.SetTypingState(true);
    var sent := s.SendMessage(input, env, outcome);
    assert sent == None && s.chatHistory == [] && s.isTyping;
    s.SetTypingState(false);
    TrimEmptyIff(blank);
    sent := s.SendMessage(blank, env, outcome);
    assert sent == None && s.chatHistory == [] && !s.isTyping;
  }

  /** A 2xx reply with a non-blank body: the trimmed body is appended after the user entry and the flag is down. */
  method SuccessScenario(env: SendEnv, encode: seq<ChatEntry> -> string, decode: string -> Option<seq<ChatEntry>>,
                         question: string, reply: Outcome)
    requires Trim(question) != []
    requires reply.Response? && IsOk(reply.status) && Trim(reply.body) != []
  {
    var s := new ChatSession("k3x9q0a1z", encode, decode, None);
    var sent := s.SendMessage(question, env, reply);
    var u := UserEntry(question, env);
    assert sent == Some(BuildPayload(Trim(question), s.currentUser, env, [] + [u]));
    SendSuccessReply([], question, env, reply.status, reply.statusText, reply.body);
    assert s.chatHistory == [u, ChatEntry(Bot, Trim(reply.body), env.replyStamp)];
    assert !s.isTyping;
  }

  /** A non-2xx reply: the user entry stays last, the request carried it as its context, and the flag is down. */
  method FailureScenario(env: SendEnv, encode: seq<ChatEntry> -> string, decode: string -> Option<seq<ChatEntry>>,
                         question: string, reply: Outcome)
    requires Trim(question) != []
    requires reply.Response? && !IsOk(reply.status)
  {
    var s := new ChatSession("k3x9q0a1z", encode, decode, None);
    var sent := s.SendMessage(question, env, reply);
    var u := UserEntry(question, env);
    SendFailureKeepsUserLast([], question, env, reply);
    assert s.chatHistory == [u];
    assert sent == Some(BuildPayload(Trim(question), s.currentUser, env, [] + [u]));
    ContextEndsWithUserEntry([], u);
    assert sent.value.context.previousMessages == [u];
    assert !s.isTyping;
  }

  /** A declined clear keeps the history; clearing twice leaves it empty. */
  method ClearScenarios(encode: seq<ChatEntry> -> string, decode: string -> Option<seq<ChatEntry>>)
  {
    var s := new ChatSession("k3x9q0a1z", encode, decode, None);
    s.AddMessageToChat(User, "hi", "2024-01-01T00:00:00.000Z");
    s.ClearChat(false);
    assert s.chatHistory == [ChatEntry(User, "hi", "2024-01-01T00:00:00.000Z")];
    s.ClearChat(true);
    s.ClearChat(true);
    assert s.chatHistory == [] && s.storage == Some(encode([]));
  }

  /** What one page saved is what the next page loads, when decoding inverts encoding. */
  method StorageRoundTrip(encode: seq<ChatEntry> -> string, decode: string -> Option<seq<ChatEntry>>)
  {
    var s := new ChatSession("k3x9q0a1z", encode, decode, None);
    s.AddMessageToChat(User, "hi", "2024-01-01T00:00:00.000Z");
    var h := s.chatHistory;
    var t := new ChatSession("p7", encode, decode, s.storage);
    t.LoadChatHistory();
    if encode(h) != [] && decode(encode(h)) == Some(h) {
      assert t.chatHistory == h;
    }
  }

  /**
   * The send path does not apply the 1000-unit bound of `validateInput`: an
   * input of 1001 letters is accepted for sending yet is not valid input.
   */
  lemma SendAcceptsOverlongInput()
    ensures exists input: string :: SendAccepted(input, false) && !ValidateInput(Some(input))
  {
    var input: string := seq(1001, _ => 'a');
    assert !IsJsWhitespace(input[0]) && !IsJsWhitespace(input[1000]);
    TrimOfTrimmed(input);
    assert Utf16Length(Trim(input)) == 1001;
    assert SendAccepted(input, false) && !ValidateInput(Some(input));
  }
}
