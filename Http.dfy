/**
 * What the two route handlers share: the JSON response shapes, the thrown
 * value seen by their `catch`, and the message list sent to the completion
 * model (`[system, ...context, user]`) with its reply fallback.
 */
module Http {

  import opened Wrappers
  import opened Types

  /** A value caught by a handler's `catch`: an `Error` carrying a message, or any other value. */
  datatype Thrown = ErrorObject(message: string) | NonError

  /** `error instanceof Error ? error.message : fallback` */
  function ErrorMessage(thrown: Thrown, fallback: string): (m: string)
    ensures thrown.ErrorObject? ==> m == thrown.message
    ensures thrown.NonError? ==> m == fallback
  {
    match thrown
    case ErrorObject(message) => message
    case NonError => fallback
  }

  /** The JSON bodies the handlers answer with. */
  datatype Body =
    | ReplyBody(response: string)                                 // `{ response }`
    | TranscriptionBody(transcription: string, response: string)  // `{ transcription, response }`
    | ErrorBody(error: string)                                    // `{ error }`

  /** `NextResponse.json(body, { status })`; the status defaults to 200. */
  datatype Response = Response(status: int, body: Body)

  /** `response.ok` */
  predicate IsOk(r: Response) {
    200 <= r.status <= 299
  }

  /** A role in the completion request: the system prompt, or a chat role. */
  datatype CompletionRole = SystemRole | ChatRole(role: Role)

  datatype CompletionMessage = CompletionMessage(role: CompletionRole, content: string)

  /** One entry of `chatCompletion.choices`; `None` when `message?.content` is absent or null. */
  datatype Choice = Choice(content: Option<string>)

  /** What `groq.chat.completions.create` yields: choices, or a thrown value. */
  datatype Completion = Completed(choices: seq<Choice>) | CompletionFailed(thrown: Thrown)

  const Apology: string := "I apologize, but I could not generate a response."

  /**
   * `[{ role: 'system', content: systemPrompt }, ...context.map(...), { role: 'user', content: user }]`
   */
  function BuildMessages(systemPrompt: string, context: seq<ChatContextMessage>, user: string)
    : (ms: seq<CompletionMessage>)
    ensures |ms| == |context| + 2
    ensures ms[0] == CompletionMessage(SystemRole, systemPrompt)
    ensures forall i :: 0 <= i < |context| ==>
      ms[i + 1] == CompletionMessage(ChatRole(context[i].role), context[i].content)
    ensures ms[|ms| - 1] == CompletionMessage(ChatRole(User), user)
  {
    [CompletionMessage(SystemRole, systemPrompt)]
    + seq(|context|, i requires 0 <= i < |context| => CompletionMessage(ChatRole(context[i].role), context[i].content))
    + [CompletionMessage(ChatRole(User), user)]
  }

  /** The three parts `BuildMessages` puts together. */
  datatype Prompt = Prompt(systemPrompt: string, context: seq<ChatContextMessage>, user: string)

  /** Reads context turns back out of model messages; a system entry is not a context turn. */
  function TurnsOf(ms: seq<CompletionMessage>): (r: Option<seq<ChatContextMessage>>)
    ensures r.None? <==> exists i :: 0 <= i < |ms| && ms[i].role.SystemRole?
    ensures r.Some? ==> (|r.value| == |ms| &&
      forall i :: 0 <= i < |ms| ==> ms[i] == CompletionMessage(ChatRole(r.value[i].role), r.value[i].content))
  {
    if ms == [] then Some([])
    else match ms[0].role
      case SystemRole => None
      case ChatRole(role) =>
        match TurnsOf(ms[1..])
        case None => None
        case Some(rest) => Some([ChatContextMessage(role, ms[0].content)] + rest)
  }

  /**
   * Reads a message list back into its parts: a system entry first, context
   * turns, and a user turn last; anything else is `None`.
   */
  function SplitMessages(ms: seq<CompletionMessage>): (r: Option<Prompt>)
    ensures r.Some? ==> (|ms| >= 2 && ms[0] == CompletionMessage(SystemRole, r.value.systemPrompt) &&
      ms[|ms| - 1] == CompletionMessage(ChatRole(User), r.value.user))
  {
    if |ms| >= 2 && ms[0].role.SystemRole? && ms[|ms| - 1].role == ChatRole(User) then
      match TurnsOf(ms[1..|ms| - 1])
      case None => None
      case Some(context) => Some(Prompt(ms[0].content, context, ms[|ms| - 1].content))
    else None
  }

  /**
   * The model receives exactly the parts it was given: the system prompt, the
   * context entry by entry in order, and the user turn all read back.
   */
  lemma ContextRoundTrip(systemPrompt: string, context: seq<ChatContextMessage>, user: string)
    ensures SplitMessages(BuildMessages(systemPrompt, context, user)) == Some(Prompt(systemPrompt, context, user))
  {
    var ms := BuildMessages(systemPrompt, context, user);
    var middle := ms[1..|ms| - 1];
    assert forall i :: 0 <= i < |middle| ==> middle[i] == ms[i + 1];
    var turns := TurnsOf(middle);
    assert turns.Some?;
    assert forall i :: 0 <= i < |context| ==> turns.value[i] == context[i];
    assert turns.value == context;
    assert ms[0].content == systemPrompt && ms[|ms| - 1].content == user;
  }

  /** Every list that reads back into parts is the list those parts build. */
  lemma SplitBuild(ms: seq<CompletionMessage>)
    requires SplitMessages(ms).Some?
    ensures var p := SplitMessages(ms).value;
      BuildMessages(p.systemPrompt, p.context, p.user) == ms
  {
    var p := SplitMessages(ms).value;
    var built := BuildMessages(p.systemPrompt, p.context, p.user);
    var middle := ms[1..|ms| - 1];
    assert TurnsOf(middle) == Some(p.context);
    assert |built| == |ms|;
    forall i | 0 <= i < |ms| ensures built[i] == ms[i] {
      if 0 < i < |ms| - 1 {
        assert middle[i - 1] == ms[i];
      }
    }
  }

  /** `chatCompletion.choices[0]?.message?.content || Apology` */
  function ReplyText(choices: seq<Choice>): (r: string)
    ensures r != ""
    ensures |choices| > 0 && choices[0].content.Some? && choices[0].content.value != "" ==>
      r == choices[0].content.value
    ensures |choices| == 0 || choices[0].content.None? || choices[0].content.value == "" ==>
      r == Apology
  {
    if |choices| > 0 && choices[0].content.Some? && choices[0].content.value != "" then
      choices[0].content.value
    else
      Apology
  }
}
