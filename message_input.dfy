/** The text box of components/MessageInput.jsx. */
module MessageInput {
  import opened Wrappers
  import opened Text

  /** A key press: `e.key` and `e.shiftKey`. */
  datatype KeyEvent = KeyEvent(key: string, shiftKey: bool)

  /** Enter without Shift sends; Shift+Enter makes a line break. */
  predicate IsSendKey(e: KeyEvent) {
    e.key == "Enter" && !e.shiftKey
  }

  class InputBox {
    var input: string

    constructor ()
      ensures input == ""
    {
      input := "";
    }

    /** `onChange`. */
    method Change(value: string)
      modifies this
      ensures input == value
    {
      input := value;
    }

    /**
     * `handleSend`: blank input is not sent and stays as it is; other input is handed to
     * `onSend` exactly as typed, untrimmed, and the box empties.
     */
    method HandleSend() returns (sent: Option<string>)
      modifies this
      ensures IsBlank(old(input)) ==> sent.None? && input == old(input)
      ensures !IsBlank(old(input)) ==> sent == Some(old(input)) && input == ""
    {
      if IsBlank(input) {
        return None;
      }
      sent := Some(input);
      input := "";
    }

    /** `handleKeyDown`: only Enter without Shift attempts a send. */
    method HandleKeyDown(e: KeyEvent) returns (sent: Option<string>)
      modifies this
      ensures !IsSendKey(e) ==> sent.None? && input == old(input)
      ensures IsSendKey(e) && IsBlank(old(input)) ==> sent.None? && input == old(input)
      ensures IsSendKey(e) && !IsBlank(old(input)) ==> sent == Some(old(input)) && input == ""
    {
      if IsSendKey(e) {
        sent := HandleSend();
      } else {
        sent := None;
      }
    }
  }
}
