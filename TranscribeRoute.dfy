/**
 * `POST /api/transcribe` (app/api/transcribe/route.ts): transcribes the
 * uploaded audio, then asks the completion model with the transcript as the
 * user turn, and answers with both.
 */
module TranscribeRoute {

  import opened Wrappers
  import opened Types
  import opened Http

  /** The uploaded `audio` file, left abstract: it is only handed to the transcription service. */
  datatype Audio = Audio(name: string, bytes: seq<int>)

  /** The `context` form field. */
  datatype ContextField =
    | NoContext                                   // absent, or the empty string
    | ContextJson(turns: seq<ChatContextMessage>) // text that parses as a JSON array of turns
    | Malformed                                   // text `JSON.parse` rejects

  /** A present `audio` form field: an uploaded file or a plain string value. */
  datatype AudioField = AudioFile(file: Audio) | AudioText(text: string)

  /** The two form fields; `audio` is `None` when the field is absent. */
  datatype Form = Form(audio: Option<AudioField>, context: ContextField)

  /** The request body: decoded form data, or the value `request.formData()` rejected with. */
  datatype Request = FormData(form: Form) | BadForm(thrown: Thrown)

  /** What `groq.audio.transcriptions.create` yields. */
  datatype Transcription = Transcribed(text: string) | TranscriptionFailed(thrown: Thrown)

  /** What the handler answered, and the calls it made to the two services. */
  datatype Handled = Handled(
    response: Response,
    transcriptionCalls: seq<AudioField>,
    completionCalls: seq<seq<CompletionMessage>>)

  const SystemPrompt: string :=
    "You are a helpful, knowledgeable AI assistant. Answer questions directly and provide detailed, "
    + "informative responses. Be conversational and friendly. Keep your answers informative but brief "
    + "enough to be spoken aloud. When asked about yourself or your capabilities, explain that you are "
    + "powered by Groq's Llama 3.3 70B model with Whisper for audio transcription."

  /** The `let context = []` fallback: anything but a parsed array leaves the context empty. */
  function ParseContext(field: ContextField): (c: seq<ChatContextMessage>)
    ensures field.ContextJson? ==> c == field.turns
    ensures !field.ContextJson? ==> c == []
  {
    match field
    case ContextJson(turns) => turns
    case _ => []
  }

  /**
   * `!audioFile`: an absent field or the empty string. A file is an object and
   * passes, even an empty one; so does any other string.
   */
  predicate NoAudio(audio: Option<AudioField>) {
    audio.None? || audio.value == AudioText("")
  }

  function Failure(thrown: Thrown): Response {
    Response(500, ErrorBody(ErrorMessage(thrown, "Failed to process audio")))
  }

  /** `POST(request)`, with the transcription and completion services as oracles. */
  function Post(request: Request, transcribe: AudioField -> Transcription,
                complete: seq<CompletionMessage> -> Completion): (h: Handled)
    ensures request.BadForm? ==> h == Handled(Failure(request.thrown), [], [])
    // no audio is a 400, before either service is called, whatever the context field holds
    ensures h.response.status == 400 <==> request.FormData? && NoAudio(request.form.audio)
    ensures h.response.status == 400 ==>
      h.response.body == ErrorBody("No audio file provided") &&
      h.transcriptionCalls == [] && h.completionCalls == []
    // audio present: exactly one transcription call, on that audio
    ensures request.FormData? && !NoAudio(request.form.audio) ==>
      h.transcriptionCalls == [request.form.audio.value]
    // the model is called only with a transcript, on [system, ...context, user transcript]
    ensures |h.completionCalls| <= 1
    ensures |h.completionCalls| == 1 <==>
      |h.transcriptionCalls| == 1 && transcribe(h.transcriptionCalls[0]).Transcribed?
    ensures |h.completionCalls| == 1 ==>
      h.completionCalls[0] ==
        BuildMessages(SystemPrompt, ParseContext(request.form.context), transcribe(h.transcriptionCalls[0]).text)
    // success: the transcript and the reply (or the apology), both
    ensures h.response.status == 200 <==> |h.completionCalls| == 1 && complete(h.completionCalls[0]).Completed?
    ensures h.response.status == 200 ==>
      h.response.body == TranscriptionBody(transcribe(h.transcriptionCalls[0]).text,
                                           ReplyText(complete(h.completionCalls[0]).choices))
    // a failure of either service is a 500 with its message, or `Failed to process audio`
    ensures |h.transcriptionCalls| == 1 && transcribe(h.transcriptionCalls[0]).TranscriptionFailed? ==>
      h.response == Failure(transcribe(h.transcriptionCalls[0]).thrown)
    ensures |h.completionCalls| == 1 && complete(h.completionCalls[0]).CompletionFailed? ==>
      h.response == Failure(complete(h.completionCalls[0]).thrown)
    ensures h.response.status in {200, 400, 500}
  {
    match request
    case BadForm(thrown) => Handled(Failure(thrown), [], [])
    case FormData(Form(audio, contextField)) =>
      var context := ParseContext(contextField);
      if NoAudio(audio) then
        Handled(Response(400, ErrorBody("No audio file provided")), [], [])
      else
        match transcribe(audio.value)
        case TranscriptionFailed(thrown) => Handled(Failure(thrown), [audio.value], [])
        case Transcribed(text) =>
          var messages := BuildMessages(SystemPrompt, context, text);
          match complete(messages)
          case CompletionFailed(thrown) => Handled(Failure(thrown), [audio.value], [messages])
          case Completed(choices) =>
            Handled(Response(200, TranscriptionBody(text, ReplyText(choices))), [audio.value], [messages])
  }
}
