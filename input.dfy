/**
 * The Enter-key interception on web contents: with "prevent Enter" on, a plain
 * Enter becomes Shift+Return (a new line instead of sending) and Ctrl+Enter
 * clicks the send button; both suppress the original key event.
 */
module Input {

  /** The fields of a `before-input-event` input the handler looks at. */
  datatype KeyInput = KeyInput(key: string, shift: bool, control: bool)

  /** What the handler does with one input. */
  datatype InputAction =
    | PassThrough      // the event is left alone
    | SendShiftReturn  // a Shift+Return key-down is injected and the event suppressed
    | ClickSend        // the page's send button is clicked and the event suppressed

  /** The key the injected Shift+Return arrives as. */
  const ShiftReturn: KeyInput := KeyInput("Enter", true, false)

  function EnterAction(preventEnter: bool, input: KeyInput): (a: InputAction)
    ensures a == SendShiftReturn <==>
      preventEnter && input.key == "Enter" && !input.shift && !input.control
    ensures a == ClickSend <==> preventEnter && input.key == "Enter" && input.control
    ensures a == PassThrough <==>
      !preventEnter || input.key != "Enter" || (input.shift && !input.control)
  {
    if preventEnter && input.key == "Enter" && !input.shift && !input.control then SendShiftReturn
    else if preventEnter && input.key == "Enter" && input.control then ClickSend
    else PassThrough
  }

  /** Whether the handler calls `preventDefault` on the event. */
  predicate Suppressed(a: InputAction) {
    a != PassThrough
  }

  /** The Shift+Return the handler injects is not itself intercepted again. */
  lemma InjectedKeyPassesThrough(preventEnter: bool)
    ensures EnterAction(preventEnter, ShiftReturn) == PassThrough
  {
  }

  /** With the setting off, no input is touched. */
  lemma OffMeansUntouched(input: KeyInput)
    ensures EnterAction(false, input) == PassThrough
  {
  }
}
