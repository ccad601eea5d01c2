/**
 * The shared record types of the chat client (types/index.ts): a displayed
 * chat message and the reduced role/content turn that is sent as context.
 */
module Types {

  import opened Wrappers

  /** `'user' | 'assistant'` */
  datatype Role = User | Assistant

  /**
   * One entry of the displayed conversation history. `isAudio` is optional in
   * the source: `None` stands for the absent property.
   */
  datatype Message = Message(
    id: string,
    role: Role,
    content: string,
    timestamp: int,
    isAudio: Option<bool>)

  /** One turn of the rolling context window sent to the completion model. */
  datatype ChatContextMessage = ChatContextMessage(role: Role, content: string)

  /** `msg => ({ role: msg.role, content: msg.content })` */
  function ToContext(m: Message): (c: ChatContextMessage)
    ensures c.role == m.role && c.content == m.content
  {
    ChatContextMessage(m.role, m.content)
  }

  /** The number a string of decimal digits spells, most significant digit first. */
  function DigitsValue(digits: string): nat {
    if digits == [] then 0
    else
      var d := digits[|digits| - 1] as int - '0' as int;
      DigitsValue(digits[..|digits| - 1]) * 10 + (if 0 <= d <= 9 then d else 0)
  }

  /** The digits of a non-negative integer, as `${n}` renders it. */
  function DecimalString(n: nat): (r: string)
    ensures |r| >= 1
    ensures forall i :: 0 <= i < |r| ==> '0' <= r[i] <= '9'
    ensures (|r| == 1) == (n < 10)
    ensures DigitsValue(r) == n
  {
    var d := [(('0' as int) + n % 10) as char];
    if n < 10 then d
    else
      var r := DecimalString(n / 10) + d;
      assert r[..|r| - 1] == DecimalString(n / 10);
      r
  }
}
