/** The keyboard events the input handlers receive (crossterm's `KeyEvent`). */
module Keys {

  import opened Options

  datatype KeyCode =
    | Backspace | Enter | Left | Right | Up | Down | Home | End
    | PageUp | PageDown | Tab | BackTab | Delete | Insert
    | F(n: nat) | Char(c: char) | Null | Esc

  /** The modifier flags held down with a key. */
  datatype KeyModifiers = KeyModifiers(shift: bool, control: bool, alt: bool)

  const NONE := KeyModifiers(false, false, false)
  const CONTROL := KeyModifiers(false, true, false)

  datatype KeyEvent = KeyEvent(code: KeyCode, modifiers: KeyModifiers)

  /** A terminal event: only key presses are handled. */
  datatype Event = Key(key: KeyEvent) | OtherEvent

  /** `key.modifiers == KeyModifiers::CONTROL`: Ctrl and nothing else. */
  predicate CtrlDown(key: KeyEvent)
  {
    key.modifiers == CONTROL
  }

  /** `char::to_digit(10)`. */
  function ToDigit(c: char): (r: Option<nat>)
    ensures r.Some? <==> '0' <= c <= '9'
    ensures r.Some? ==> r.value < 10 && c == ('0' as int + r.value) as char
  {
    if '0' <= c <= '9' then Some(c as int - '0' as int) else None
  }
}
