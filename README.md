# Voice/text chat client — a Dafny model

This project models the logic of a browser chat client that sends typed or
spoken input to a hosted language model and shows the conversation. It
covers five pieces:

- **The rolling context window** (`ContextManager`, lib/contextManager.ts).
  `localStorage` is the `LocalStorage` class. Its key `ai_chat_context` is a
  field holding an optional stored value.
  - `addMessage` appends a turn and keeps the last five (`slice(-5)`).
  - `getContext` reads the window back, or `[]`.
  - `clearContext` removes the key.
  - `formatContextForPrompt` renders `User: …` / `Assistant: …` lines.
- **The page controller** (`Home`, app/page.tsx). It is a class over the
  displayed history, the `isProcessing` flag and the two storage keys.
  - The voice handler appends a user turn and an assistant turn.
  - The text handler is split at its `await`, so the busy state is visible
    while a request is outstanding:
    - `SendText` appends the user message, sets the flag and builds the request.
    - `ReceiveReply` appends the reply or returns the alert, and clears the flag.
    - `HandleTextMessage` runs both against a server oracle.
  - Also modelled: clearing the chat, the persistence effect, the
    last-assistant search behind "speak", and the context slice.
- **`POST /api/chat`** (app/api/chat/route.ts). It validates the message,
  defaults the context, calls the model once on `[system, ...context, user]`,
  falls back to a fixed apology and maps exceptions to 500.
- **`POST /api/transcribe`** (app/api/transcribe/route.ts). The same shape,
  with a transcription step before the model call.
- **The text box** (`TextInput`, components/TextInput.tsx). Its submit guard
  and its button's enabled state.

The language model and the speech-to-text service are function-typed
parameters (oracles). Each handler returns the list of calls it made, so
that "no call is made" can be stated. Clock readings are `nat` parameters.
`confirm` is a boolean parameter, and `alert` is a returned value.
`speechSynthesis` availability is a boolean parameter.

The model follows the code in these places:

- A text send that fails keeps the user message already appended. Nothing is
  rolled back (app/page.tsx:67).
- There is no "busy" rejection. The page only disables its inputs while a
  request is outstanding (app/page.tsx:334, app/page.tsx:339).
  `Conversation.BusyPageSendsNothing` states the effect on the text box.
- The page never calls `ContextManager`. It builds its context by slicing its
  own history, and only removes the `ai_chat_context` key when clearing.
  `Conversation.RecentContextIsWindow` shows that both follow the same
  last-five rule.
- `/api/transcribe` rejects an `audio` field that is missing or the empty
  string (`!audioFile`, app/api/transcribe/route.ts:22). An uploaded file
  passes even when it is empty, and so does any other string; both reach the
  transcription service.

## Model

| member | source | states |
|---|---|---|
| Types.ToContext | app/page.tsx:72-75 | the context entry keeps the message's role and content |
| Types.DecimalString | app/page.tsx:42 | `${Date.now()}` renders a clock reading as decimal digits whose value is that reading |
| JsArray.SliceLast | lib/contextManager.ts:27 | `slice(-n)` keeps `min(len, n)` elements, which are the tail of the input in order |
| JsArray.SliceLastShort | lib/contextManager.ts:27 | an array that already fits is kept whole |
| JsArray.SliceLastAppend | lib/contextManager.ts:23-29 | trimming before a push and trimming after it give the same window |
| JsArray.Reverse | app/page.tsx:121 | `reverse()` has the same length, with element i taken from position len-1-i |
| JsArray.Find | app/page.tsx:121 | `find` gives undefined iff nothing matches, otherwise the first match |
| Http.IsOk | app/page.tsx:88 | `response.ok`: a 2xx status; `Conversation.RouteOkIffSuccess` shows it accepts exactly the routes' 200 answers |
| JsString.StripStart | components/TextInput.tsx:17-18 | only leading characters of the class are dropped (white space for `trim()`), the rest is a suffix, and it does not start with one |
| JsString.StripEnd | components/TextInput.tsx:17-18 | only trailing characters of the class are dropped, the rest is a prefix, and it does not end with one |
| JsString.Trim | components/TextInput.tsx:17-18 | `trim()` is no longer than its input, and a non-empty result neither starts nor ends with white space |
| JsString.TrimEmptyIff | components/TextInput.tsx:17 | `trim()` is empty iff every character is white space |
| JsString.TrimIdempotent | components/TextInput.tsx:18 | trimming twice equals trimming once |
| JsString.Join | lib/contextManager.ts:51 | `join` of no lines is empty, of one line is that line, and otherwise starts with the first line |
| JsString.JoinAppend | lib/contextManager.ts:49-51 | joining one more line appends the separator and the line |
| JsString.SplitJoin | lib/contextManager.ts:49-51 | splitting a join at the separator gives back the lines when none contains it |
| ContextManager.ReadWindow | lib/contextManager.ts:7-17 | the window is empty outside a browser, with no key, or with an unreadable value, and otherwise is the stored array |
| ContextManager.Pushed | lib/contextManager.ts:24-27 | the pushed window holds 1 to 5 turns and ends with the new turn; `PushedKeepsLast` gives the rest of its order |
| ContextManager.PushedKeepsLast | lib/contextManager.ts:23-29 | after a push the window has min(n+1, 5) ≤ 5 turns: the old window's tail in order, then the new turn last |
| ContextManager.PushedWithRoom | lib/contextManager.ts:24-27 | below five turns nothing is dropped and the window grows by exactly the new turn |
| ContextManager.PushedWhenFull | lib/contextManager.ts:24-27 | a full window drops exactly its oldest turn (FIFO eviction) |
| ContextManager.ReplayIsLast | lib/contextManager.ts:19-33 | after one or more appends the window is the last five of everything appended, in order |
| ContextManager.ReplayFromEmpty | lib/contextManager.ts:19-33 | N appends to an empty window leave exactly the last min(N, 5) turns |
| ContextManager.ClearEmptiesAndIsIdempotent | lib/contextManager.ts:35-43 | unless the removal throws, the window reads empty after a clear (outside a browser it reads empty anyway); a removal that throws leaves it as it was; clearing twice equals clearing once |
| ContextManager.AfterAdd | lib/contextManager.ts:19-33 | when the write happens, reading back gives the old window with the new turn pushed: 1 to 5 turns, the new one last; outside a browser or when `setItem` throws, nothing is stored |
| ContextManager.AfterClear | lib/contextManager.ts:35-43 | in a browser, unless `removeItem` throws, the key is gone and the window reads empty; otherwise nothing changes |
| ContextManager.FormatLine | lib/contextManager.ts:50 | a line is `User: ` or `Assistant: ` followed by the content, by role |
| ContextManager.ParseFormatLine | lib/contextManager.ts:50 | a rendered line parses back to its turn, so role and content are recoverable |
| ContextManager.Lines | lib/contextManager.ts:49-50 | one line per turn, in window order |
| ContextManager.FormatWindow | lib/contextManager.ts:45-52 | the rendering is `""` exactly when the window is empty, and otherwise begins with the oldest turn's line |
| ContextManager.FormatOneLinePerTurn | lib/contextManager.ts:49-51 | splitting the rendering at `\n` gives one line per turn, and parsing them gives the window back, for newline-free contents |
| ContextManager.FormatAppend | lib/contextManager.ts:49-51 | one more turn adds `\n` and its line, with no trailing separator |
| ContextManager.ContextManager.constructor | lib/contextManager.ts:3-5 | the manager works on the given storage, inside or outside a browser |
| ContextManager.ContextManager.GetContext | lib/contextManager.ts:7-17 | `getContext()` is the stored window, or `[]` in the three fallback cases |
| ContextManager.ContextManager.AddMessage | lib/contextManager.ts:19-33 | stores push-then-slice(-5) of the old window (at most five turns); no change outside a browser or when the write throws; the other key is untouched |
| ContextManager.ContextManager.ClearContext | lib/contextManager.ts:35-43 | removes the key so that the window reads empty; no change outside a browser or when removal throws |
| ContextManager.ContextManager.FormatContextForPrompt | lib/contextManager.ts:45-52 | the prompt is the rendering of the current window, and is empty iff the window is |
| Http.ErrorMessage | app/api/chat/route.ts:46 | an `Error` yields its message, any other thrown value the fallback text |
| Http.BuildMessages | app/api/chat/route.ts:19-33 | the list has length (context length)+2: the system prompt, each context turn's role and content in order, then the user turn |
| Http.TurnsOf | app/api/transcribe/route.ts:46-49 | reads context turns back out of model messages, entry by entry; fails iff an entry has the system role |
| Http.SplitMessages | app/api/transcribe/route.ts:41-54 | a list reads back into parts only when it is a system entry, context turns, then a user turn |
| Http.ContextRoundTrip | app/api/transcribe/route.ts:41-54 | the model receives exactly the given system prompt, context (entry by entry, in order) and user turn: the list reads back into those parts |
| Http.SplitBuild | app/api/transcribe/route.ts:41-54 | every list that reads back into parts is exactly the list those parts build |
| Http.ReplyText | app/api/chat/route.ts:39 | the reply is never empty: the first choice's non-empty content, else the apology |
| ChatRoute.ContextOrDefault | app/api/chat/route.ts:9 | an absent context defaults to `[]` |
| ChatRoute.ValidMessage | app/api/chat/route.ts:11 | only a non-empty string passes the message check; the 400 clause of `ChatRoute.Post` states that it is exactly what the route accepts |
| ChatRoute.Post | app/api/chat/route.ts:7-52 | 400 `Invalid message provided` iff the message is missing, empty or not a string, with no model call; otherwise exactly one call on [system, ...context, message]; 200 `{response}` iff it completed; 500 with the error text or `Failed to process message` for a bad body or a failed call |
| ChatRoute.SuccessHasReply | app/api/chat/route.ts:39-43 | a 200 body is `{response}` with a non-empty reply |
| TranscribeRoute.ParseContext | app/api/transcribe/route.ts:13-20 | an absent, empty or unparsable context field leaves the context empty, and a parsed array is used as is |
| TranscribeRoute.NoAudio | app/api/transcribe/route.ts:22 | `!audioFile` holds for an absent field and the empty string only; the 400 clause of `TranscribeRoute.Post` states its use |
| TranscribeRoute.Post | app/api/transcribe/route.ts:7-74 | 400 `No audio file provided` iff the audio field is missing or the empty string, with neither service called; otherwise one transcription call, on that field; the model is called iff a transcript came back, on [system, ...context, transcript]; 200 `{transcription, response}` iff it completed; 500 with the error text or `Failed to process audio` for any failure |
| TextInput.SubmissionSpec | components/TextInput.tsx:17-18 | a send happens iff the input is enabled and holds a non-space character |
| TextInput.Submission | components/TextInput.tsx:17-18 | a send happens only while enabled, and the sent text is non-empty and trimmed at both ends |
| TextInput.ButtonDisabled | components/TextInput.tsx:42 | the button is disabled exactly when submitting would send nothing |
| TextInput.ResubmitSame | components/TextInput.tsx:18 | the sent text is already trimmed |
| TextInput.TextInput.constructor | components/TextInput.tsx:13 | the field starts empty |
| TextInput.TextInput.OnChange | components/TextInput.tsx:29 | typing replaces the field's text |
| TextInput.TextInput.SubmitButtonDisabled | components/TextInput.tsx:42 | disabled iff `disabled` is set or the text is all white space |
| TextInput.TextInput.HandleSubmit | components/TextInput.tsx:15-21 | sends `trim(message)` only when it is non-empty and the input is enabled, then clears the field; otherwise sends nothing and keeps the text |
| ChatPage.RecentContext | app/page.tsx:71-75 | the last min(history length, 5) messages, oldest first, reduced to role and content |
| ChatPage.UserMessage | app/page.tsx:60-65 | a user turn with the given content, whose id is the clock reading in decimal followed by `-user` |
| ChatPage.AssistantMessage | app/page.tsx:95-100 | an assistant turn with the given content, whose id is the clock reading in decimal followed by `-assistant` |
| ChatPage.MessageIds | app/page.tsx:42-50 | a user id never equals an assistant id, and two ids of one role are equal only when made at the same clock reading |
| ChatPage.ResponseText | app/page.tsx:98 | `data.response` of a reply or transcription body; a body without it reads as `""` |
| ChatPage.ReadReply | app/page.tsx:88-106 | an alert happens iff the fetch failed or the status is not ok; a failed fetch alerts the thrown message or `Failed to send message`; an HTTP error alerts the body's non-empty `error`, else `Failed to get response`; an ok response yields the body's `response` |
| ChatPage.LastAssistantIndex | app/page.tsx:121 | the position of the last assistant message, or none iff there is no assistant message |
| ChatPage.SpeakTarget | app/page.tsx:121 | finds an assistant message of the history exactly when the history holds one |
| ChatPage.SpeakTargetIsLastAssistant | app/page.tsx:121 | reverse-then-find selects exactly the last assistant message |
| ChatPage.Home.Mount | app/page.tsx:13-22 | the history starts as the saved one, or empty, and the page starts idle |
| ChatPage.Home.Persist | app/page.tsx:33-38 | a non-empty history is written to `chat_messages`; an empty one writes nothing |
| ChatPage.Home.HandleAudioTranscription | app/page.tsx:40-57 | appends exactly a user message (the transcript, `isAudio`) then an assistant message (the reply), and keeps earlier messages |
| ChatPage.Home.SendText | app/page.tsx:59-86 | appends the user message before the request, saves the history and sets the page busy, so the text box sends nothing until the reply; the request carries the text and the last five messages from before the send |
| ChatPage.Home.ReceiveReply | app/page.tsx:88-109 | on a reply appends exactly one assistant message; on failure appends nothing and removes nothing, and alerts; the page is idle afterwards either way; a non-empty history is saved, and otherwise the saved one is kept |
| ChatPage.Home.HandleTextMessage | app/page.tsx:59-110 | the whole send: the user message, then the assistant message only on success, idle at the end, and the saved history equals the displayed one |
| ChatPage.Home.ClearChat | app/page.tsx:112-118 | when confirmed, empties the history and removes both keys, so the context window reads empty; otherwise changes nothing |
| ChatPage.Home.SpeakLastMessage | app/page.tsx:120-126 | speaks the content of the last assistant message, or nothing when there is none or no speech support |
| ChatPage.Home.RecorderContext | app/page.tsx:340-343 | the recorder gets at most five turns, the same slice a text send uses |
| Conversation.SubmittedTextReachesModel | app/page.tsx:82-85 | text the text box lets through is never rejected by the chat route and reaches the model after at most five context turns |
| Conversation.RouteAnswerReachesPage | app/page.tsx:88-102 | a 200 from the chat route becomes exactly its non-empty reply; any error becomes an alert with the route's error text or `Failed to get response` |
| Conversation.RouteOkIffSuccess | app/page.tsx:88 | `response.ok` holds for an answer of either route exactly when its status is 200 |
| Conversation.BusyPageSendsNothing | app/page.tsx:332-335 | a page whose `isProcessing` is set passes `disabled` to the text box, which then sends nothing, whatever was typed |
| Conversation.RecentContextIsWindow | app/page.tsx:72 | the page's slice equals the window that appending the whole history to an empty context window would leave |

## Left out

- Serialisation is not modelled. Storage holds decoded values, not JSON text.
  A stored `ai_chat_context` that parses to something other than an array
  (for example `null`) is not modelled. In the source, `getContext` would
  return it as is, and a later `push` would throw.
- The chat route's `context` is absent or an array. For a valid message, a
  `context` of another JSON type (such as `null`) makes `.map` throw a
  `TypeError`, which the route reports as a 500; an invalid message is still a
  400 first (app/api/chat/route.ts:11-16 runs before :25). That path is not
  modelled. The same holds for a transcribe `context` field that parses to
  something other than an array; there the throw comes after the
  transcription call (app/api/transcribe/route.ts:30 runs before :46).
- Context entries are typed: a turn's role is `user` or `assistant` and its
  content is a string. Both routes copy each entry's role and content
  unchecked (app/api/chat/route.ts:25-28, app/api/transcribe/route.ts:46-49).
  So a client-sent entry with the role `system`, or with content that is not
  a string, would reach the model as it is. That case is not modelled.
- ChatPage.ReadReply: a response body that is not JSON (`response.json()`
  rejecting) is not modelled, and an `ok` body without `response` yields the
  empty string where the source would store `undefined`.
- ChatPage.Home.Persist, ChatPage.Home.Mount and ChatPage.Home.ClearChat: the
  page's own `localStorage` calls have no try/catch (`getItem` at
  app/page.tsx:19, `setItem` at app/page.tsx:36, `removeItem` at
  app/page.tsx:115-116). A throwing `getItem`, `setItem` (a full quota; the
  history is never trimmed) or `removeItem` is not modelled: the model's
  storage calls always succeed. `Valid()` holds only on runs where they do. A
  failed `setItem` would leave an older history in `chat_messages`. A failed
  `removeItem` would leave a key in place after the history shows empty.
- ChatPage.Home.Mount: a saved history that is not valid JSON (which would
  make `JSON.parse` throw at mount) is not modelled.
- Clock readings: each handler reads one instant `now`. The source calls
  `Date.now()` several times per message, and the readings may differ by a
  millisecond. Two messages of one role made in the same millisecond get the
  same id, so the uniqueness of message ids is not claimed.
- The persistence effect is modelled as a call at the end of each handler
  that changes the history. React's render scheduling and batching are not
  modelled.
- Speech synthesis is not modelled: voice choice, `rate`, `pitch`, `volume`,
  the `isSpeaking` flag, `stopSpeaking` and voice loading at mount. These are
  a browser API with floating-point settings. Only the choice of message to
  speak is modelled.
- components/AudioRecorder.tsx is not part of this model. It is browser media
  capture, `fetch` and `FormData`. Its only input from the page, the context
  slice, is modelled as ChatPage.Home.RecorderContext.
- Rendering is not modelled: JSX, animation, components/MessageList.tsx and
  components/StopButton.tsx.
- The hosted model and transcription service are oracles. Model names,
  `temperature`, `max_tokens`, transcription language and format are not
  modelled. lib/groq is not part of this model.
- Console logging is not modelled.
