# Chat session of the healthcare assistant widget, in Dafny

This project models the logic of `js/main.js`, the browser front end of a
healthcare chatbot. The front end sends each user message to an n8n webhook
and shows the reply. Most of the file is DOM and CSS work. What the model
keeps is:

- the session state `AppState`: a history of `{sender, message, timestamp}`
  entries, a busy flag `isTyping`, the user id and the `localStorage` slot
  `healthapp_chat_history`;
- the send cycle `sendMessage`. It refuses blank input and a send already in
  flight. Otherwise it raises the busy flag and appends the trimmed user text.
  It then builds the request with the last five history entries as context.
  It classifies the webhook's reply by `sendToWebhook`, appends the bot text
  chosen by `handleWebhookResponse`, and lowers the flag on every path;
- `addMessageToChat` (its history push and save), `clearChat`,
  `setTypingState`, `saveChatHistory` and `loadChatHistory`;
- the duck-typed reply lookup `extractBotMessage`, over a small model of
  JavaScript values with JavaScript truthiness;
- `processMessageText`, which wraps each `http://`/`https://` URL in a fixed
  anchor template and then turns each newline into `<br>`;
- `validateInput`, a bound of 1 to 1000 UTF-16 code units on the trimmed text.

The files are:

- `wrappers.dfy`: `Option` and `Result`.
- `js_text.dfy`: the ECMAScript white-space set, which `trim` and the regular
  expression class `\s` share. Also `trim` and `length` in UTF-16 code units.
- `js_values.dfy`: `JsValue`, truthiness, property reads, optional chaining,
  `||` and `extractBotMessage`.
- `message_text.dfy`: `processMessageText` and `validateInput`.
- `webhook.dfy`: the status and body classification of `sendToWebhook` and
  the bot text chosen by `handleWebhookResponse`.
- `chat.dfy`: the send cycle as functions on histories, and the class
  `ChatSession` whose methods update the history, the busy flag and the
  storage slot in place.
- `scenarios.dfy`: client methods that drive a session only through its
  contracts.

The network call, the clock, `Math.random`, `navigator.userAgent` and the
`confirm` dialog are inputs. The webhook's reply is the value
`NetworkError(reason) | Response(status, statusText, body)`. The three clock
readings of one send, the session token and the user agent form `SendEnv`.
`JSON.stringify` and `JSON.parse` are abstract functions given to the
session's constructor. A failed parse is `None`.

`sendMessage` awaits `sendToWebhook` (js/main.js:165) and then
`handleWebhookResponse` (js/main.js:168). The second call has no `await` of
its own, so the model splits at the first: `BeginSend` runs up to the request
and `FinishSend` from the reply. `SendMessage` runs the two one after the
other.

Only `validateInput` (js/main.js:996-998) has a 1000-unit bound, and nothing
calls it. The send path rejects only input whose trim is empty
(js/main.js:146), so appending a message applies no length bound.
`ChatScenarios.SendAcceptsOverlongInput` exhibits an input of 1001 letters
that a send accepts and `validateInput` refuses.

Some members are plain definitions with no row of their own below.
`JsValues.Truthy`, `JsValues.Member`, `JsValues.OptionalMember` and
`JsValues.Or` define JavaScript truthiness, property reads, optional chaining
and `||`. `JsValues.Candidates` lists the seven reads of `extractBotMessage` in
source order; its meaning is stated by `ExtractIsFirstTruthy` and
`FirstTruthyRanked`. `MessageText.Anchor` is the replacement template, whose
use is stated by `LinkifyUrl`. `Chat.HistoryAfterSend` is the history after
an accepted send, characterised by `SendOnlyAppends`,
`SendFailureKeepsUserLast` and `SendSuccessReply`. `LinkifyAtMatch`,
`LinkifyNoMatch` and `LinkifyWholeMatch` unfold one step of the link scan for
the proofs of `LinkifyUrl`, `LinkifyAppendSpace` and the `LinkifySplit` lemmas.

## Model

| member | source | states |
|---|---|---|
| JsText.TrimStart | js/main.js:144 | the result is a suffix of the input; everything dropped is white space; the result does not start with white space |
| JsText.TrimEnd | js/main.js:144 | the result is a prefix of the input; everything dropped is white space; the result does not end with white space |
| JsText.Trim | js/main.js:144 | `trim` is no longer than its input and neither starts nor ends with white space |
| JsText.TrimIsPiece | js/main.js:144 | the trim is a contiguous piece `s[i..j]`, with only white space before `i` and after `j` |
| JsText.TrimEmptyIff | js/main.js:146 | the trim is empty exactly when the text is all white space (both directions) |
| JsText.TrimOfTrimmed | js/main.js:144 | a property of `String.prototype.trim`: a text that neither starts nor ends with white space is its own trim |
| JsText.TrimIdempotent | js/main.js:144 | a property of `String.prototype.trim`: trimming twice gives the same as trimming once |
| JsText.Utf16Length | js/main.js:997 | `.length` lies between the number of characters and twice that, and equals it for text inside the Basic Multilingual Plane |
| JsValues.FirstTruthyRanked | js/main.js:306-313 | the or-chain yields the truthy candidate of least rank, and `null` when none is truthy |
| JsValues.ExtractBotMessage | js/main.js:298-317 | a string comes back unchanged; a number, boolean, function, `null` or `undefined` gives `null`; any non-string argument gives `null` or a truthy value |
| JsValues.ExtractIsFirstTruthy | js/main.js:304-314 | for an object the result is the first truthy value among `message`, `response`, `reply`, `text`, `content`, `data?.message`, `result?.message`, in that order |
| MessageText.NonSpaceRun | js/main.js:630 | `[^\s]+` consumes the longest run of non-white-space, stopping at white space or the end |
| MessageText.SchemeLength | js/main.js:630 | the scheme match `https?:\/\/` is 8, 7 or 0 characters long |
| MessageText.SchemeLengthIsPrefix | js/main.js:630 | the scheme length is 8 exactly for a `https://` prefix and 7 exactly for a `http://` prefix |
| MessageText.UrlMatchLength | js/main.js:630 | a match at the head never runs past the text |
| MessageText.UrlMatchAtScheme | js/main.js:630 | the pattern matches at the head exactly when a scheme there is followed by a non-white-space character, and the match then runs to the next white space or the end, whatever text follows |
| MessageText.UrlMatchIsUrl | js/main.js:630 | a match is a scheme followed by one or more non-white-space characters and ends at white space or at the end |
| MessageText.UrlMatchWhole | js/main.js:630 | a scheme followed by non-white-space to the end matches as a whole |
| MessageText.Linkify | js/main.js:631 | the global URL replacement never shortens the text, and gives the empty text only for the empty text; its scan is stated by the lemmas below |
| MessageText.LinkifyUrl | js/main.js:630-631 | a text that is one URL becomes exactly one anchor `<a href="url" target="_blank" rel="noopener noreferrer">url</a>` |
| MessageText.LinkifyNoUrl | js/main.js:630-631 | text where no `http://` or `https://` starts is left unchanged by the link step |
| MessageText.NonSpaceRunConcat | js/main.js:630 | a non-white-space run stops inside a prefix that ends with white space |
| MessageText.UrlMatchConcat | js/main.js:630 | a match at the head of `a + b` is the one at the head of `a` when `a` ends with white space |
| MessageText.LinkifyConcatAtMatch | js/main.js:631 | at a match, the scan of `a + b` emits the anchor taken from `a` and continues on the rest of `a` followed by `b` |
| MessageText.LinkifyConcatNoMatch | js/main.js:631 | without a match, the scan of `a + b` keeps `a`'s first character and continues |
| MessageText.SchemeLengthAppendSpace | js/main.js:630 | a white-space character appended at the end never completes a scheme |
| MessageText.NonSpaceRunAppendSpace | js/main.js:630 | a white-space character appended at the end never extends a non-white-space run |
| MessageText.UrlMatchAppendSpace | js/main.js:630 | a match at the head is unchanged by a white-space character appended at the end |
| MessageText.LinkifyAppendSpace | js/main.js:630-631 | appending a white-space character to a text appends it, unchanged, to the linked text |
| MessageText.LinkifySplitAtSpace | js/main.js:630-631 | linking distributes over concatenation at a split right after white space: no URL spans it |
| MessageText.LinkifySplitAfterMatch | js/main.js:630-631 | the same, when a URL starts at the head of `a` |
| MessageText.LinkifySplitAfterChar | js/main.js:630-631 | the same, when none starts at the head of `a` |
| MessageText.BreakLines | js/main.js:634 | the result contains no newline |
| MessageText.BreakLinesConcat | js/main.js:634 | the newline replacement distributes over concatenation |
| MessageText.BreakLinesAtNewline | js/main.js:634 | each newline becomes `<br>` and the text on either side is rewritten independently |
| MessageText.BreakLinesNoNewline | js/main.js:634 | text without a newline is left unchanged |
| MessageText.ProcessMessageText | js/main.js:628-637 | the rendered text contains no newline |
| MessageText.ProcessMessageTextAtNewline | js/main.js:628-637 | each newline of a message becomes `<br>` in the rendered text, and the text on either side is rendered independently: the link step keeps the newline |
| MessageText.ProcessMessageTextPlain | js/main.js:628-637 | text with neither a URL scheme nor a newline is returned unchanged |
| MessageText.ValidateInput | js/main.js:996-998 | true exactly when the input is present, not all white space, and its trim is at most 1000 UTF-16 code units; the trim then has 1 to 1000 characters |
| Webhook.SendToWebhook | js/main.js:223-254 | success exactly on a 2xx status; success carries the trimmed body, the raw body and type `text`; a non-2xx status fails with status, status text and raw body; a network error fails with its reason |
| Webhook.ReplyText | js/main.js:273-288 | the bot text of a success is never empty, and is either the reply message or the fixed fallback text |
| Webhook.HandleWebhookResponse | js/main.js:270-296 | over the reply object: a non-empty message is shown as it is, an empty one falls back to the fixed text; the shown text is never empty |
| Webhook.OkReplyText | js/main.js:245-288 | on a 2xx status the raw body is kept; a body that is not all white space is shown trimmed; an all-white-space or empty body is shown as the fixed fallback text |
| Chat.ContextWindow | js/main.js:188 | `slice(-5)` is the last min(5, n) entries of the history, in order |
| Chat.BuildPayload | js/main.js:182-192 | the request carries the message, user id, request time and session token as given, the newest min(5, n) history entries in order as context, the user agent, and platform `web` |
| Chat.ReplyEntries | js/main.js:163-175 | a send's reply appends at most one entry: a bot entry exactly when the webhook call succeeds, stamped with the reply time |
| Chat.SendOnlyAppends | js/main.js:143-176 | an accepted send keeps the old history as a prefix, then the trimmed user entry, then at most one bot entry |
| Chat.SendFailureKeepsUserLast | js/main.js:226-242 | on a network error or a non-2xx status no bot entry is appended, so the history ends with the user entry |
| Chat.SendSuccessReply | js/main.js:245-288 | on a 2xx status the history gains the user entry and then a bot entry holding the trimmed body, or the fallback text when the trimmed body is empty |
| Chat.OkReplyEntries | js/main.js:273-288 | on a 2xx status exactly one bot entry is appended, with the trimmed body or the fallback text |
| Chat.ContextEndsWithUserEntry | js/main.js:154-188 | the request context has min(5, n + 1) entries, ends with the current user entry, and before it holds the newest history entries in order |
| Chat.ChatSession.constructor | js/main.js:2-9 | a fresh page has an empty history, is not busy, and its user id is `user_` followed by the random suffix |
| Chat.ChatSession.SaveChatHistory | js/main.js:973-979 | the storage slot holds the encoding of the whole current history; nothing else changes |
| Chat.ChatSession.LoadChatHistory | js/main.js:981-993 | a non-empty stored text replaces the history by its decoding, or by the empty history when decoding fails; otherwise the history is kept |
| Chat.ChatSession.AddMessageToChat | js/main.js:509-516 | exactly one entry is appended at the end, earlier entries are unchanged, and the new history is saved |
| Chat.ChatSession.ClearChat | js/main.js:672-690 | a confirmed clear empties the history and saves that; a declined one changes nothing |
| Chat.ChatSession.SetTypingState | js/main.js:656-657 | sets the busy flag and changes nothing else |
| Chat.ChatSession.BeginSend | js/main.js:143-165 | blank input or a send in flight changes nothing; otherwise the flag is raised, the trimmed user entry is appended and saved, and the request carries the trimmed text, the user id and the history that now ends with that entry |
| Chat.ChatSession.FinishSend | js/main.js:165-175 | the reply's entries are appended, storage is saved only when an entry was appended, and the flag is down on every path |
| Chat.ChatSession.SendMessage | js/main.js:143-176 | a refused send changes nothing; an accepted one ends with the flag down, the history grown as `HistoryAfterSend` says, the storage saved, and the request built from the history that ends with the user entry |
| ChatScenarios.SendAcceptsOverlongInput | js/main.js:996-998 | some input is accepted by the send path yet rejected by `validateInput`: the send path does not apply the 1000-unit bound |

## Left out

- DOM and CSS: message bubbles, `innerHTML` templates, style injection, scrolling, textarea resizing, the modals and the service pages. They hold no state the model could state anything about.
- `addErrorMessage` and `addSystemMessage`: they only build DOM nodes and never touch the history. The model has no operation for them; `FinishSend` on a failure appends nothing.
- `displayErrorDetails`, `displayNetworkError` and `displayResponseDetails`: these only show diagnostics. For an HTTP error the page shows more than one error display; the model keeps only the history effect, which is none.
- `fetch`, its headers and CORS mode: the webhook's reply is an input value. The thrown error's message reaches the page only through `displayNetworkError`, a diagnostic display that the model leaves out as DOM.
- `testWebhookConnectivity`: its call in `initializeApp` is commented out.
- `formatTime`: its output depends on the browser locale.
- `sanitizeInput`: nothing calls it.
- `getRandomHealthTip`, `simulateTyping` and the other random or timed helpers: randomness and delays are outside the model. The random user-id suffix is a constructor parameter.
- Asynchrony: a send is modelled as one sequential call. The busy flag is what keeps two sends apart in the page; the model does not interleave sends.
- Chat.ChatSession.SaveChatHistory: assumes `setItem` succeeds. When it throws, the page only logs and the slot keeps its old value; the model does not capture that case.
- Chat.ChatSession.LoadChatHistory: `JSON.parse` of a stored value that is valid JSON but not an array of entries is not modelled; `decode` yields either a history or a failure.
- JsText.Utf16Length: Dafny characters are Unicode scalar values, so lone surrogates cannot occur in a model string.
- JsValues.JsValue: BigInt, Symbol, getters and prototype lookups are not modelled; no field read can run code.
- MessageText.Linkify: the regular expression is modelled by its left-to-right scan for this one pattern, not by a general regular-expression engine.
