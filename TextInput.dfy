/**
 * The text box of the chat page (components/TextInput.tsx): it holds what
 * the user typed, and on submit hands the trimmed text to the page, unless it
 * is blank or the input is disabled.
 */
module TextInput {

  import opened Wrappers
  import JsString

  /**
   * What `handleSubmit` passes to `onSendMessage`, if anything: only while
   * enabled, and never an empty text or one that starts or ends with white space.
   */
  function Submission(message: string, disabled: bool): (r: Option<string>)
    ensures r.Some? ==> !disabled
    ensures r.Some? ==>
      r.value != "" && !JsString.IsWhiteSpace(r.value[0]) && !JsString.IsWhiteSpace(r.value[|r.value| - 1])
  {
    if JsString.Trim(message) != "" && !disabled then Some(JsString.Trim(message)) else None
  }

  /**
   * `!message.trim() || disabled`, the submit button's `disabled` attribute:
   * the button is disabled exactly when pressing it would send nothing.
   */
  function ButtonDisabled(message: string, disabled: bool): (r: bool)
    ensures r <==> Submission(message, disabled).None?
  {
    JsString.Trim(message) == "" || disabled
  }

  /**
   * A submission happens exactly when the input is enabled and holds a
   * character that is not white space.
   */
  lemma SubmissionSpec(message: string, disabled: bool)
    ensures Submission(message, disabled).Some? <==>
      !disabled && exists k :: 0 <= k < |message| && !JsString.IsWhiteSpace(message[k])
  {
    JsString.TrimEmptyIff(message);
  }

  /** Submitting again what was just sent sends the same text: the trimmed text is already trimmed. */
  lemma ResubmitSame(message: string)
    requires Submission(message, false).Some?
    ensures Submission(Submission(message, false).value, false) == Submission(message, false)
  {
    JsString.TrimIdempotent(message);
  }

  /** The `TextInput` component and its `message` state. */
  class TextInput {
    var message: string

    /** `useState('')` */
    constructor ()
      ensures message == ""
    {
      message := "";
    }

    /** `onChange={(e) => setMessage(e.target.value)}` */
    method OnChange(value: string)
      modifies this
      ensures message == value
    {
      message := value;
    }

    /** The submit button's `disabled` attribute for the current text. */
    function SubmitButtonDisabled(disabled: bool): (r: bool)
      reads this
      ensures r <==> disabled || forall k :: 0 <= k < |message| ==> JsString.IsWhiteSpace(message[k])
    {
      JsString.TrimEmptyIff(message);
      ButtonDisabled(message, disabled)
    }

    /**
     * `handleSubmit`. The returned value is the argument of the
     * `onSendMessage` call, or `None` when it is not called.
     */
    method HandleSubmit(disabled: bool) returns (sent: Option<string>)
      modifies this
      ensures sent == Submission(old(message), disabled)
      ensures message == if sent.Some? then "" else old(message)
    {
      var trimmed := JsString.Trim(message);
      if trimmed != "" && !disabled {
        sent := Some(trimmed);
        message := "";
      } else {
        sent := None;
      }
    }
  }
}
