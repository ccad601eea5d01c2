/**
 * The chat page's controller (the handlers of app/page.tsx): the displayed
 * history, the in-flight flag, the two storage keys it writes or removes,
 * and the context slice it sends with each request.
 */
module ChatPage {

  import opened Wrappers
  import opened Types
  import opened Storage
  import opened Http
  import JsArray
  import ChatRoute
  import ContextManager
  import TextInput

  /** `messages.slice(-5)`: how many recent messages go along as context. */
  const ContextSize: nat := 5

  /**
   * `messages.slice(-5).map(msg => ({ role: msg.role, content: msg.content }))`:
   * the last `min(|history|, 5)` messages, oldest first, reduced to role and content.
   */
  function RecentContext(history: seq<Message>): (c: seq<ChatContextMessage>)
    ensures |c| == JsArray.Min(|history|, ContextSize)
    ensures forall i :: 0 <= i < |c| ==>
      c[i].role == history[|history| - |c| + i].role &&
      c[i].content == history[|history| - |c| + i].content
  {
    var recent := JsArray.SliceLast(history, ContextSize);
    seq(|recent|, i requires 0 <= i < |recent| => ToContext(recent[i]))
  }

  /**
   * The user message a handler creates at clock reading `now`: its id is the
   * clock reading in decimal followed by `-user`.
   */
  function UserMessage(content: string, now: nat, isAudio: Option<bool>): (m: Message)
    ensures ToContext(m) == ChatContextMessage(User, content)
    ensures |m.id| > 5 && m.id[|m.id| - 5..] == "-user" && DigitsValue(m.id[..|m.id| - 5]) == now
  {
    var id := DecimalString(now) + "-user";
    assert id[..|id| - 5] == DecimalString(now);
    Message(id, User, content, now, isAudio)
  }

  /**
   * The assistant message a handler creates at clock reading `now`: its id is
   * the clock reading in decimal followed by `-assistant`.
   */
  function AssistantMessage(content: string, now: nat, timestamp: int): (m: Message)
    ensures ToContext(m) == ChatContextMessage(Assistant, content)
    ensures |m.id| > 10 && m.id[|m.id| - 10..] == "-assistant" && DigitsValue(m.id[..|m.id| - 10]) == now
  {
    var id := DecimalString(now) + "-assistant";
    assert id[..|id| - 10] == DecimalString(now);
    Message(id, Assistant, content, timestamp, None)
  }

  /**
   * A user id never equals an assistant id, and two ids of the same role are
   * equal only when they were made at the same clock reading.
   */
  lemma MessageIds(now1: nat, now2: nat, content1: string, content2: string,
                   isAudio1: Option<bool>, isAudio2: Option<bool>, timestamp1: int, timestamp2: int)
    ensures UserMessage(content1, now1, isAudio1).id != AssistantMessage(content2, now2, timestamp2).id
    ensures UserMessage(content1, now1, isAudio1).id == UserMessage(content2, now2, isAudio2).id ==> now1 == now2
    ensures AssistantMessage(content1, now1, timestamp1).id == AssistantMessage(content2, now2, timestamp2).id ==>
      now1 == now2
  {
    var u := UserMessage(content1, now1, isAudio1).id;
    var a := AssistantMessage(content2, now2, timestamp2).id;
    assert u[|u| - 1] == 'r' && a[|a| - 1] == 't';
  }

  /** How the `fetch('/api/chat', ...)` call ended. */
  datatype FetchOutcome =
    | NetworkError(thrown: Thrown)  // `fetch` itself rejected
    | Received(response: Response)  // an HTTP response arrived

  /** The text to append, or the text of the `alert`. */
  datatype Reply = Replied(text: string) | Alerted(message: string)

  /** `data.response`; a body without that property reads as the empty string. */
  function ResponseText(body: Body): (text: string)
    ensures body.ErrorBody? ==> text == ""
    ensures !body.ErrorBody? ==> text == body.response
  {
    match body
    case ReplyBody(response) => response
    case TranscriptionBody(_, response) => response
    case ErrorBody(_) => ""
  }

  /**
   * The `try`/`catch` around the request: a response that is not `ok` throws
   * `new Error(error.error || 'Failed to get response')`; anything thrown is
   * alerted with its message.
   */
  function ReadReply(outcome: FetchOutcome): (r: Reply)
    ensures r.Alerted? <==> outcome.NetworkError? || !IsOk(outcome.response)
    ensures outcome.NetworkError? ==> r == Alerted(ErrorMessage(outcome.thrown, "Failed to send message"))
    ensures outcome.Received? && !IsOk(outcome.response) ==>
      r.message == (if outcome.response.body.ErrorBody? && outcome.response.body.error != ""
                    then outcome.response.body.error else "Failed to get response") &&
      r.message != ""
    ensures outcome.Received? && IsOk(outcome.response) ==> r == Replied(ResponseText(outcome.response.body))
  {
    match outcome
    case NetworkError(thrown) => Alerted(ErrorMessage(thrown, "Failed to send message"))
    case Received(response) =>
      if !IsOk(response) then
        var error := if response.body.ErrorBody? then response.body.error else "";
        Alerted(if error != "" then error else "Failed to get response")
      else
        Replied(ResponseText(response.body))
  }

  predicate IsAssistant(m: Message) {
    m.role == Assistant
  }

  /** The position of the last assistant message, searching from the end. */
  function LastAssistantIndex(history: seq<Message>): (r: Option<nat>)
    ensures r.None? <==> forall i :: 0 <= i < |history| ==> history[i].role != Assistant
    ensures r.Some? ==> (r.value < |history| && history[r.value].role == Assistant &&
      forall j :: r.value < j < |history| ==> history[j].role != Assistant)
  {
    if history == [] then None
    else if history[|history| - 1].role == Assistant then Some(|history| - 1)
    else LastAssistantIndex(history[..|history| - 1])
  }

  /**
   * `[...messages].reverse().find(m => m.role === 'assistant')`: an assistant
   * message of the history, found exactly when the history holds one.
   */
  function SpeakTarget(history: seq<Message>): (r: Option<Message>)
    ensures r.None? <==> forall i :: 0 <= i < |history| ==> history[i].role != Assistant
    ensures r.Some? ==> r.value.role == Assistant && r.value in history
  {
    var rev := JsArray.Reverse(history);
    assert forall i :: 0 <= i < |history| ==> history[i] == rev[|history| - 1 - i];
    JsArray.Find(rev, IsAssistant)
  }

  /** The first assistant message of the reversed history is the last one of the history. */
  lemma SpeakTargetIsLastAssistant(history: seq<Message>)
    ensures SpeakTarget(history) ==
      (match LastAssistantIndex(history)
       case None => None
       case Some(i) => Some(history[i]))
  {
    var rev := JsArray.Reverse(history);
    var found := JsArray.Find(rev, IsAssistant);
    var last := LastAssistantIndex(history);
    if found.Some? {
      var i :| 0 <= i < |rev| && rev[i] == found.value && IsAssistant(rev[i]) &&
               forall j :: 0 <= j < i ==> !IsAssistant(rev[j]);
      var k := |history| - 1 - i;
      assert history[k] == rev[i];
      forall j | k < j < |history| ensures history[j].role != Assistant {
        assert history[j] == rev[|history| - 1 - j];
      }
      assert last == Some(k);
    } else {
      forall j | 0 <= j < |history| ensures history[j].role != Assistant {
        assert history[j] == rev[|history| - 1 - j];
      }
    }
  }

  /** The `Home` page component: its state and the `localStorage` it shares. */
  class Home {
    var messages: seq<Message>
    var isProcessing: bool
    const storage: LocalStorage

    /** The persistence effect's invariant: a non-empty history is saved verbatim. */
    ghost predicate Valid()
      reads this, storage
    {
      messages != [] ==> storage.chatMessages == Some(messages)
    }

    /** Mounting: `useState` defaults, then the load effect restores a saved history. */
    constructor Mount(storage: LocalStorage)
      ensures this.storage == storage && Valid()
      ensures messages == storage.chatMessages.GetOr([]) && !isProcessing
    {
      this.storage := storage;
      messages := storage.chatMessages.GetOr([]);
      isProcessing := false;
    }

    /** The effect that runs after `messages` changes: saves a non-empty history. */
    method Persist()
      modifies storage
      ensures Valid()
      ensures storage.chatMessages == if messages != [] then Some(messages) else old(storage.chatMessages)
      ensures storage.aiChatContext == old(storage.aiChatContext)
    {
      if |messages| > 0 {
        storage.chatMessages := Some(messages);
      }
    }

    /** `handleAudioTranscription(transcription, response)`: appends the voice turn and its reply. */
    method HandleAudioTranscription(transcription: string, response: string, now: nat)
      requires Valid()
      modifies this, storage
      ensures Valid()
      ensures messages == old(messages) +
        [UserMessage(transcription, now, Some(true)), AssistantMessage(response, now, now + 1)]
      ensures isProcessing == old(isProcessing)
      ensures storage.chatMessages == Some(messages)
      ensures storage.aiChatContext == old(storage.aiChatContext)
    {
      var userMessage := UserMessage(transcription, now, Some(true));
      var assistantMessage := AssistantMessage(response, now, now + 1);
      messages := messages + [userMessage, assistantMessage];
      Persist();
    }

    /**
     * The first half of `handleTextMessage(messageText)`, up to the `fetch`:
     * the user message is appended at once, the page becomes busy, and the
     * request carries the last five messages from before this send.
     */
    method SendText(messageText: string, now: nat) returns (request: ChatRoute.ChatRequest)
      requires Valid()
      modifies this, storage
      ensures Valid() && isProcessing
      ensures messages == old(messages) + [UserMessage(messageText, now, None)]
      ensures request == ChatRoute.ChatRequest(ChatRoute.Text(messageText), Some(RecentContext(old(messages))))
      ensures storage.chatMessages == Some(messages)
      ensures storage.aiChatContext == old(storage.aiChatContext)
      // the text box gets `disabled={isProcessing}`: until the reply, it sends nothing
      ensures forall typed :: TextInput.Submission(typed, isProcessing) == None
    {
      var userMessage := UserMessage(messageText, now, None);
      var context := RecentContext(messages);
      messages := messages + [userMessage];
      isProcessing := true;
      Persist();
      request := ChatRoute.ChatRequest(ChatRoute.Text(messageText), Some(context));
    }

    /**
     * The second half of `handleTextMessage`: on a reply, one assistant
     * message is appended; on any failure nothing is appended or rolled back
     * and the error is alerted; either way the page is no longer busy.
     */
    method ReceiveReply(outcome: FetchOutcome, now: nat) returns (alert: Option<string>)
      requires Valid()
      modifies this, storage
      ensures Valid() && !isProcessing
      ensures ReadReply(outcome).Replied? ==>
        messages == old(messages) + [AssistantMessage(ReadReply(outcome).text, now, now)] && alert == None
      ensures ReadReply(outcome).Alerted? ==>
        messages == old(messages) && alert == Some(ReadReply(outcome).message)
      ensures storage.chatMessages == if messages != [] then Some(messages) else old(storage.chatMessages)
      ensures storage.aiChatContext == old(storage.aiChatContext)
    {
      match ReadReply(outcome) {
        case Replied(text) =>
          messages := messages + [AssistantMessage(text, now, now)];
          alert := None;
        case Alerted(message) =>
          alert := Some(message);
      }
      isProcessing := false;
      Persist();
    }

    /**
     * `handleTextMessage(messageText)` from start to end, with the server
     * as the oracle `server`, the send at clock reading `sentAt` and the reply
     * at `repliedAt`.
     */
    method HandleTextMessage(messageText: string, sentAt: nat, repliedAt: nat,
                             server: ChatRoute.ChatRequest -> FetchOutcome)
      returns (alert: Option<string>)
      requires Valid()
      modifies this, storage
      ensures Valid() && !isProcessing
      ensures var reply := ReadReply(server(ChatRoute.ChatRequest(ChatRoute.Text(messageText),
                                                                  Some(RecentContext(old(messages))))));
        messages == old(messages) + [UserMessage(messageText, sentAt, None)] +
          (if reply.Replied? then [AssistantMessage(reply.text, repliedAt, repliedAt)] else []) &&
        alert == (if reply.Alerted? then Some(reply.message) else None)
      ensures storage.chatMessages == Some(messages)
      ensures storage.aiChatContext == old(storage.aiChatContext)
    {
      var request := SendText(messageText, sentAt);
      alert := ReceiveReply(server(request), repliedAt);
    }

    /** `clearChat()`, with the answer to the `confirm` dialog as `confirmed`. */
    method ClearChat(confirmed: bool)
      requires Valid()
      modifies this, storage
      ensures Valid() && isProcessing == old(isProcessing)
      ensures confirmed ==> messages == [] && storage.chatMessages == None && storage.aiChatContext == None
      ensures confirmed ==> ContextManager.ReadWindow(true, storage.aiChatContext) == []
      ensures !confirmed ==> (messages == old(messages) &&
        storage.chatMessages == old(storage.chatMessages) && storage.aiChatContext == old(storage.aiChatContext))
    {
      if confirmed {
        messages := [];
        storage.chatMessages := None;
        storage.aiChatContext := None;
        Persist();
      }
    }

    /**
     * The selection made by `speakLastMessage()`: the content handed to the
     * speech synthesiser, if any. `canSpeak` is `'speechSynthesis' in window`.
     */
    method SpeakLastMessage(canSpeak: bool) returns (utterance: Option<string>)
      ensures utterance.Some? <==> canSpeak && exists i :: 0 <= i < |messages| && messages[i].role == Assistant
      ensures utterance.Some? ==>
        exists i :: (0 <= i < |messages| && messages[i].role == Assistant &&
                     utterance.value == messages[i].content &&
                     forall j :: i < j < |messages| ==> messages[j].role != Assistant)
    {
      var lastAssistantMessage := SpeakTarget(messages);
      SpeakTargetIsLastAssistant(messages);
      if lastAssistantMessage.Some? && canSpeak {
        utterance := Some(lastAssistantMessage.value.content);
      } else {
        utterance := None;
      }
    }

    /** The `context` prop handed to `AudioRecorder`. */
    function RecorderContext(): (c: seq<ChatContextMessage>)
      reads this
      ensures |c| <= ContextSize
      ensures c == RecentContext(messages)
    {
      RecentContext(messages)
    }
  }
}
