/**
 * The chat input box: a guarded send of the trimmed text, and the send
 * button's disabled flag.
 */
module ChatInput {
  import opened Wrappers
  import Text

  /** The send button's `disabled={!message.trim() || isLoading}`. */
  predicate SendDisabled(message: string, isLoading: bool) {
    Text.Trim(message) == "" || isLoading
  }

  /**
   * What `handleSubmit` passes to `onSendMessage`: the trimmed text, when it is
   * non-empty and no send is pending; nothing otherwise.
   */
  function Outgoing(message: string, isLoading: bool): (r: Option<string>)
    ensures r.Some? ==> r.value == Text.Trim(message)
    ensures r.Some? ==> r.value != "" && !Text.IsWhitespace(r.value[0]) && !Text.IsWhitespace(r.value[|r.value| - 1])
    ensures isLoading ==> r.None?
    ensures r.None? ==> isLoading || Text.AllWhitespace(message)
  {
    Text.TrimEmptyIff(message);
    if Text.Trim(message) != "" && !isLoading then Some(Text.Trim(message)) else None
  }

  /** The button is disabled exactly when a submission would send nothing. */
  lemma DisabledExactlyWhenNothingSent(message: string, isLoading: bool)
    ensures SendDisabled(message, isLoading) <==> Outgoing(message, isLoading).None?
  {
  }

  /** The input box's state. */
  class ChatInputBox {
    var message: string

    constructor ()
      ensures message == ""
    {
      message := "";
    }

    /** The input's `onChange`. */
    method Change(value: string)
      modifies this`message
      ensures message == value
    {
      message := value;
    }

    /**
     * `handleSubmit`: sends the trimmed text and clears the box when the guard
     * passes; otherwise sends nothing and leaves the box as it was.
     */
    method HandleSubmit(isLoading: bool) returns (sent: Option<string>)
      modifies this`message
      ensures sent == Outgoing(old(message), isLoading)
      ensures sent.Some? ==> message == ""
      ensures sent.None? ==> message == old(message)
    {
      if Text.Trim(message) != "" && !isLoading {
        sent := Some(Text.Trim(message));
        message := "";
      } else {
        sent := None;
      }
    }
  }
}
