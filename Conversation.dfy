/**
 * How the pieces fit together: what the text box sends, what the page puts
 * in the request, what the chat route makes of it, and how the reply comes
 * back into the history.
 */
module Conversation {

  import opened Wrappers
  import opened Types
  import opened Http
  import JsArray
  import ContextManager
  import ChatRoute
  import TranscribeRoute
  import ChatPage
  import TextInput

  /**
   * Text that the text box lets through is always accepted by the chat
   * route: no 400, exactly one model call, on the system prompt, the last
   * (at most five) messages of the history before the send, and the text.
   */
  lemma SubmittedTextReachesModel(typed: string, history: seq<Message>,
                                  complete: seq<CompletionMessage> -> Completion)
    requires TextInput.Submission(typed, false).Some?
    ensures var text := TextInput.Submission(typed, false).value;
      var h := ChatRoute.Post(ChatRoute.Json(ChatRoute.ChatRequest(ChatRoute.Text(text),
                                                                    Some(ChatPage.RecentContext(history)))), complete);
      h.response.status != 400 &&
      h.completionCalls == [BuildMessages(ChatRoute.SystemPrompt, ChatPage.RecentContext(history), text)] &&
      |h.completionCalls[0]| <= ChatPage.ContextSize + 2
  {
    TextInput.SubmissionSpec(typed, false);
  }

  /**
   * The chat route's answer, read by the page: a 200 becomes exactly the
   * model's reply (never empty), any error becomes an alert carrying the
   * route's error text.
   */
  lemma RouteAnswerReachesPage(request: ChatRoute.Request, complete: seq<CompletionMessage> -> Completion)
    ensures var h := ChatRoute.Post(request, complete);
      var reply := ChatPage.ReadReply(ChatPage.Received(h.response));
      (h.response.status == 200 ==>
         reply == ChatPage.Replied(ReplyText(complete(h.completionCalls[0]).choices)) && reply.text != "") &&
      (h.response.status != 200 ==>
         reply.Alerted? &&
         (h.response.body.error != "" ==> reply.message == h.response.body.error) &&
         (h.response.body.error == "" ==> reply.message == "Failed to get response"))
  {
  }

  /**
   * The page's `response.ok` test accepts exactly the routes' successes: both
   * routes answer 200, 400 or 500, and only 200 is in the 2xx range.
   */
  lemma RouteOkIffSuccess(chat: ChatRoute.Request, transcribe: TranscribeRoute.Request,
                          transcriber: TranscribeRoute.AudioField -> TranscribeRoute.Transcription,
                          complete: seq<CompletionMessage> -> Completion)
    ensures var r := ChatRoute.Post(chat, complete).response;
      IsOk(r) <==> r.status == 200
    ensures var r := TranscribeRoute.Post(transcribe, transcriber, complete).response;
      IsOk(r) <==> r.status == 200
  {
  }

  /**
   * While a request is outstanding the page hands `disabled={isProcessing}`
   * to the text box, which then sends nothing, whatever was typed.
   */
  lemma BusyPageSendsNothing(page: ChatPage.Home, typed: string)
    requires page.isProcessing
    ensures TextInput.Submission(typed, page.isProcessing) == None
  {
  }

  /**
   * The page's context slice and the stored context window follow the same
   * rule: the last five messages of the history, reduced to role and content,
   * are what the window would hold had every message been appended to it.
   */
  lemma {:induction false} RecentContextIsWindow(history: seq<Message>)
    ensures ChatPage.RecentContext(history) ==
      ContextManager.Replay([], seq(|history|, i requires 0 <= i < |history| => ToContext(history[i])))
  {
    var turns := seq(|history|, i requires 0 <= i < |history| => ToContext(history[i]));
    ContextManager.ReplayFromEmpty(turns);
    var a, b := ChatPage.RecentContext(history), JsArray.SliceLast(turns, ContextManager.MaxContextMessages);
    assert |a| == |b|;
    forall i | 0 <= i < |a| ensures a[i] == b[i] {
      assert b[i] == turns[|turns| - |b| + i];
    }
  }
}
