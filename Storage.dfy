/**
 * The browser's `localStorage`, reduced to the two keys the client uses.
 * Serialisation is abstracted: a key holds the decoded value, or is absent.
 */
module Storage {

  import opened Wrappers
  import opened Types

  /** What `localStorage.getItem('ai_chat_context')` can hold. */
  datatype Stored =
    | Window(turns: seq<ChatContextMessage>)  // a JSON array of context turns
    | Unreadable                              // an empty string, or text that is not valid JSON

  class LocalStorage {
    /** The `chat_messages` key: the serialised conversation history. */
    var chatMessages: Option<seq<Message>>
    /** The `ai_chat_context` key: the serialised rolling context window. */
    var aiChatContext: Option<Stored>

    constructor (chatMessages: Option<seq<Message>>, aiChatContext: Option<Stored>)
      ensures this.chatMessages == chatMessages && this.aiChatContext == aiChatContext
    {
      this.chatMessages := chatMessages;
      this.aiChatContext := aiChatContext;
    }
  }
}
