/**
 * The rolling context window kept in `localStorage` under `ai_chat_context`
 * (lib/contextManager.ts): append-and-trim to the last five turns, read back
 * with an empty fallback, clear, and render as a prompt transcript.
 */
module ContextManager {

  import opened Wrappers
  import opened Types
  import opened Storage
  import JsArray
  import JsString

  /** `MAX_CONTEXT_MESSAGES` */
  const MaxContextMessages: nat := 5

  /**
   * `getContext()` as a function of the environment: outside a browser, with
   * no stored value, or with one that does not parse, the window is empty.
   */
  function ReadWindow(inBrowser: bool, stored: Option<Stored>): (w: seq<ChatContextMessage>)
    ensures !inBrowser ==> w == []
    ensures inBrowser && stored.Some? && stored.value.Window? ==> w == stored.value.turns
    ensures stored.None? || (stored.Some? && stored.value.Unreadable?) ==> w == []
  {
    if !inBrowser then []
    else match stored
      case None => []
      case Some(Unreadable) => []
      case Some(Window(turns)) => turns
  }

  /** The window `addMessage` writes: push the new turn, then `slice(-5)`. */
  function Pushed(window: seq<ChatContextMessage>, turn: ChatContextMessage): (w: seq<ChatContextMessage>)
    ensures 1 <= |w| <= MaxContextMessages && w[|w| - 1] == turn
  {
    JsArray.SliceLast(window + [turn], MaxContextMessages)
  }

  /**
   * The stored value after `addMessage(role, content)`: when the write
   * happens, reading the window back gives the old window with the new turn
   * pushed; otherwise nothing is stored.
   */
  function AfterAdd(inBrowser: bool, writeFails: bool, stored: Option<Stored>,
                    role: Role, content: string): (r: Option<Stored>)
    ensures !inBrowser || writeFails ==> r == stored
    ensures inBrowser && !writeFails ==>
      var w := ReadWindow(inBrowser, r);
      w == Pushed(ReadWindow(inBrowser, stored), ChatContextMessage(role, content)) &&
      1 <= |w| <= MaxContextMessages && w[|w| - 1] == ChatContextMessage(role, content)
  {
    if !inBrowser || writeFails then stored
    else Some(Window(Pushed(ReadWindow(inBrowser, stored), ChatContextMessage(role, content))))
  }

  /** The stored value after `clearContext()`: removed, unless the removal does not happen. */
  function AfterClear(inBrowser: bool, removeFails: bool, stored: Option<Stored>): (r: Option<Stored>)
    ensures inBrowser && !removeFails ==> r == None && ReadWindow(inBrowser, r) == []
    ensures !inBrowser || removeFails ==> r == stored
  {
    if !inBrowser || removeFails then stored else None
  }

  /** The window after `addMessage` is called for each turn of `turns` in order. */
  function Replay(window: seq<ChatContextMessage>, turns: seq<ChatContextMessage>): seq<ChatContextMessage> {
    if turns == [] then window
    else Pushed(Replay(window, turns[..|turns| - 1]), turns[|turns| - 1])
  }

  /**
   * After an `addMessage` that wrote, the window holds at most five turns:
   * the last `min(n + 1, 5)` of the old window followed by the new turn, in
   * their original order, with the new turn last.
   */
  lemma PushedKeepsLast(window: seq<ChatContextMessage>, turn: ChatContextMessage)
    ensures var w := Pushed(window, turn);
      |w| <= MaxContextMessages &&
      |w| == JsArray.Min(|window| + 1, MaxContextMessages) &&
      w[|w| - 1] == turn &&
      w[..|w| - 1] == window[|window| - (|w| - 1)..]
  {
    var w := Pushed(window, turn);
    var all := window + [turn];
    assert w[..|w| - 1] == all[|all| - |w|..|all| - 1];
    assert all[|all| - |w|..|all| - 1] == window[|window| - (|w| - 1)..];
  }

  /** A window with room left loses nothing and grows by exactly one turn. */
  lemma PushedWithRoom(window: seq<ChatContextMessage>, turn: ChatContextMessage)
    requires |window| < MaxContextMessages
    ensures Pushed(window, turn) == window + [turn]
  {
    JsArray.SliceLastShort(window + [turn], MaxContextMessages);
  }

  /** A full window drops exactly its oldest turn. */
  lemma PushedWhenFull(window: seq<ChatContextMessage>, turn: ChatContextMessage)
    requires |window| == MaxContextMessages
    ensures Pushed(window, turn) == window[1..] + [turn]
  {
    var w := Pushed(window, turn);
    assert w == (window + [turn])[1..];
  }

  /**
   * FIFO eviction over any run of appends: whatever the window held before,
   * after at least one append it is the last `min(N, 5)` turns of everything
   * appended to it so far.
   */
  lemma {:induction false} ReplayIsLast(window: seq<ChatContextMessage>, turns: seq<ChatContextMessage>)
    requires turns != []
    ensures Replay(window, turns) == JsArray.SliceLast(window + turns, MaxContextMessages)
  {
    var init, t := turns[..|turns| - 1], turns[|turns| - 1];
    assert window + turns == (window + init) + [t];
    if init != [] {
      ReplayIsLast(window, init);
      JsArray.SliceLastAppend(window + init, t, MaxContextMessages);
    } else {
      assert window + init == window;
    }
  }

  /** Starting from an empty window, `N` appends leave exactly the last `min(N, 5)` of them. */
  lemma ReplayFromEmpty(turns: seq<ChatContextMessage>)
    ensures |Replay([], turns)| == JsArray.Min(|turns|, MaxContextMessages)
    ensures Replay([], turns) == JsArray.SliceLast(turns, MaxContextMessages)
  {
    if turns != [] {
      ReplayIsLast([], turns);
      assert [] + turns == turns;
    }
  }

  /**
   * Once cleared, the window reads back empty (outside a browser it reads
   * empty anyway; a removal that throws leaves it as it was); clearing again
   * changes nothing.
   */
  lemma ClearEmptiesAndIsIdempotent(inBrowser: bool, removeFails: bool, stored: Option<Stored>)
    ensures !removeFails ==> ReadWindow(inBrowser, AfterClear(inBrowser, removeFails, stored)) == []
    ensures removeFails ==> ReadWindow(inBrowser, AfterClear(inBrowser, removeFails, stored)) == ReadWindow(inBrowser, stored)
    ensures AfterClear(inBrowser, removeFails, AfterClear(inBrowser, removeFails, stored))
         == AfterClear(inBrowser, removeFails, stored)
  {
  }

  // ---- formatContextForPrompt ----

  /** `msg.role === 'user' ? 'User' : 'Assistant'` */
  function RoleLabel(role: Role): string {
    if role == User then "User" else "Assistant"
  }

  /** One transcript line: `` `${label}: ${msg.content}` `` */
  function FormatLine(msg: ChatContextMessage): (line: string)
    ensures msg.role == User ==> |line| >= 6 && line[..6] == "User: " && line[6..] == msg.content
    ensures msg.role == Assistant ==> |line| >= 11 && line[..11] == "Assistant: " && line[11..] == msg.content
  {
    RoleLabel(msg.role) + ": " + msg.content
  }

  /** Reads a transcript line back into a turn; the inverse of `FormatLine`. */
  function ParseLine(line: string): Option<ChatContextMessage> {
    if |line| >= 6 && line[..6] == "User: " then Some(ChatContextMessage(User, line[6..]))
    else if |line| >= 11 && line[..11] == "Assistant: " then Some(ChatContextMessage(Assistant, line[11..]))
    else None
  }

  lemma ParseFormatLine(msg: ChatContextMessage)
    ensures ParseLine(FormatLine(msg)) == Some(msg)
  {
    if msg.role == Assistant {
      assert FormatLine(msg)[..6] != "User: " by {
        assert FormatLine(msg)[0] == 'A';
      }
    }
  }

  /** The transcript lines of a window, in window order. */
  function Lines(window: seq<ChatContextMessage>): (lines: seq<string>)
    ensures |lines| == |window|
    ensures forall i :: 0 <= i < |window| ==> lines[i] == FormatLine(window[i])
  {
    seq(|window|, i requires 0 <= i < |window| => FormatLine(window[i]))
  }

  /**
   * `formatContextForPrompt()` applied to a given window: empty exactly when
   * the window is, and otherwise starting with the oldest turn's line.
   */
  function FormatWindow(window: seq<ChatContextMessage>): (r: string)
    ensures r == "" <==> window == []
    ensures window != [] ==> |r| >= |FormatLine(window[0])| && r[..|FormatLine(window[0])|] == FormatLine(window[0])
  {
    if |window| == 0 then "" else JsString.Join(Lines(window), "\n")
  }

  /**
   * One line per turn, in window order: splitting the rendering at line
   * breaks and parsing each line gives the window back, whenever no turn's
   * content itself contains a line break.
   */
  lemma FormatOneLinePerTurn(window: seq<ChatContextMessage>)
    requires window != []
    requires forall i, k :: 0 <= i < |window| && 0 <= k < |window[i].content| ==> window[i].content[k] != '\n'
    ensures JsString.Split(FormatWindow(window), '\n') == Lines(window)
    ensures forall i :: 0 <= i < |window| ==> ParseLine(Lines(window)[i]) == Some(window[i])
  {
    var lines := Lines(window);
    forall j, k | 0 <= j < |lines| && 0 <= k < |lines[j]| ensures lines[j][k] != '\n' {
      var m := window[j];
      if m.role == User {
        if k >= 6 { assert lines[j][k] == m.content[k - 6]; }
      } else {
        if k >= 11 { assert lines[j][k] == m.content[k - 11]; }
      }
    }
    JsString.SplitJoin(lines, '\n');
    forall i | 0 <= i < |window| ensures ParseLine(lines[i]) == Some(window[i]) {
      ParseFormatLine(window[i]);
    }
  }

  /** Rendering a window with one more turn appends a line break and that turn's line. */
  lemma FormatAppend(window: seq<ChatContextMessage>, turn: ChatContextMessage)
    requires window != []
    ensures FormatWindow(window + [turn]) == FormatWindow(window) + "\n" + FormatLine(turn)
  {
    assert Lines(window + [turn]) == Lines(window) + [FormatLine(turn)];
    JsString.JoinAppend(Lines(window), FormatLine(turn), "\n");
  }

  /** `ContextManager`: static methods over the page's `localStorage`. */
  class ContextManager {
    /** `typeof window !== 'undefined'` */
    const inBrowser: bool
    const storage: LocalStorage

    constructor (inBrowser: bool, storage: LocalStorage)
      ensures this.inBrowser == inBrowser && this.storage == storage
    {
      this.inBrowser := inBrowser;
      this.storage := storage;
    }

    /** `getContext()` */
    function GetContext(): (w: seq<ChatContextMessage>)
      reads this, storage
      ensures w == ReadWindow(inBrowser, storage.aiChatContext)
    {
      if !inBrowser then []
      else match storage.aiChatContext
        case Some(Window(turns)) => turns
        case _ => []
    }

    /**
     * `addMessage(role, content)`. `writeFails` says whether `setItem`
     * throws (a full quota); the error is logged and swallowed.
     */
    method AddMessage(role: Role, content: string, writeFails: bool)
      modifies storage
      ensures storage.aiChatContext == AfterAdd(inBrowser, writeFails, old(storage.aiChatContext), role, content)
      ensures storage.chatMessages == old(storage.chatMessages)
      ensures inBrowser && !writeFails ==>
        GetContext() == Pushed(old(GetContext()), ChatContextMessage(role, content)) &&
        |GetContext()| <= MaxContextMessages
    {
      if !inBrowser {
        return;
      }
      var context := GetContext();
      context := context + [ChatContextMessage(role, content)];
      var trimmed := JsArray.SliceLast(context, MaxContextMessages);
      if !writeFails {
        storage.aiChatContext := Some(Window(trimmed));
      }
    }

    /** `clearContext()`. `removeFails` says whether `removeItem` throws. */
    method ClearContext(removeFails: bool)
      modifies storage
      ensures storage.aiChatContext == AfterClear(inBrowser, removeFails, old(storage.aiChatContext))
      ensures storage.chatMessages == old(storage.chatMessages)
      ensures inBrowser && !removeFails ==> GetContext() == []
    {
      if !inBrowser {
        return;
      }
      if !removeFails {
        storage.aiChatContext := None;
      }
    }

    /** `formatContextForPrompt()` */
    function FormatContextForPrompt(): (prompt: string)
      reads this, storage
      ensures prompt == FormatWindow(GetContext())
      ensures prompt == "" <==> GetContext() == []
    {
      var context := GetContext();
      if |context| == 0 then "" else JsString.Join(Lines(context), "\n")
    }
  }
}
