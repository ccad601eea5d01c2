/**
 * `POST /api/chat` (app/api/chat/route.ts): validates the message, defaults
 * the context, asks the completion model once and answers with its reply.
 */
module ChatRoute {

  import opened Wrappers
  import opened Types
  import opened Http

  /** The `message` property of the JSON body. */
  datatype MessageField =
    | NoMessage        // absent or null
    | Text(s: string)  // a string
    | NotText          // a number, boolean, object or array

  /** `{ message, context }` as decoded by `request.json()`; `None` is an absent context. */
  datatype ChatRequest = ChatRequest(message: MessageField, context: Option<seq<ChatContextMessage>>)

  /** The request body: decoded JSON, or the value `request.json()` rejected with. */
  datatype Request = Json(body: ChatRequest) | BadJson(thrown: Thrown)

  /** What the handler answered, and the message lists it sent to the completion model. */
  datatype Handled = Handled(response: Response, completionCalls: seq<seq<CompletionMessage>>)

  const SystemPrompt: string :=
    "You are a helpful, knowledgeable AI assistant. Answer questions directly and provide detailed, "
    + "informative responses. Be conversational and friendly. When asked about yourself or your "
    + "capabilities, explain that you are powered by Groq's Llama 3.3 70B model."

  /** `!message || typeof message !== 'string'` fails exactly for a non-empty string. */
  predicate ValidMessage(m: MessageField) {
    m.Text? && m.s != ""
  }

  /** `context = []` in the destructuring */
  function ContextOrDefault(context: Option<seq<ChatContextMessage>>): (c: seq<ChatContextMessage>)
    ensures context.None? ==> c == []
    ensures context.Some? ==> c == context.value
  {
    context.GetOr([])
  }

  /** `POST(request)`, with the completion service as the oracle `complete`. */
  function Post(request: Request, complete: seq<CompletionMessage> -> Completion): (h: Handled)
    // a body that cannot be decoded is a 500 with the thrown message
    ensures request.BadJson? ==>
      h == Handled(Response(500, ErrorBody(ErrorMessage(request.thrown, "Failed to process message"))), [])
    // a missing, empty or non-string message is a 400, before any model call
    ensures h.response.status == 400 <==> request.Json? && !ValidMessage(request.body.message)
    ensures h.response.status == 400 ==>
      h.response.body == ErrorBody("Invalid message provided") && h.completionCalls == []
    // a valid message makes exactly one model call, on [system, ...context, user]
    ensures request.Json? && ValidMessage(request.body.message) ==>
      h.completionCalls == [BuildMessages(SystemPrompt, ContextOrDefault(request.body.context), request.body.message.s)]
    // the model's reply (or the apology) is the whole success body
    ensures h.response.status == 200 <==> |h.completionCalls| == 1 && complete(h.completionCalls[0]).Completed?
    ensures h.response.status == 200 ==>
      h.response.body == ReplyBody(ReplyText(complete(h.completionCalls[0]).choices))
    // a failed model call is a 500 with the thrown message
    ensures |h.completionCalls| == 1 && complete(h.completionCalls[0]).CompletionFailed? ==>
      h.response == Response(500, ErrorBody(ErrorMessage(complete(h.completionCalls[0]).thrown, "Failed to process message")))
    ensures h.response.status in {200, 400, 500}
  {
    match request
    case BadJson(thrown) =>
      Handled(Response(500, ErrorBody(ErrorMessage(thrown, "Failed to process message"))), [])
    case Json(ChatRequest(message, context)) =>
      if !ValidMessage(message) then
        Handled(Response(400, ErrorBody("Invalid message provided")), [])
      else
        var messages := BuildMessages(SystemPrompt, ContextOrDefault(context), message.s);
        match complete(messages)
        case CompletionFailed(thrown) =>
          Handled(Response(500, ErrorBody(ErrorMessage(thrown, "Failed to process message"))), [messages])
        case Completed(choices) =>
          Handled(Response(200, ReplyBody(ReplyText(choices))), [messages])
  }

  /** A successful answer always carries a non-empty reply. */
  lemma SuccessHasReply(request: Request, complete: seq<CompletionMessage> -> Completion)
    requires Post(request, complete).response.status == 200
    ensures Post(request, complete).response.body.ReplyBody?
    ensures Post(request, complete).response.body.response != ""
  {
  }
}
