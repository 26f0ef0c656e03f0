/** The state behind the text input widget: a text with a cursor, and the
    selection bounds and scroll offset the renderer reads. */
module TextEdit {
  import opened Ints
  import opened Options
  import opened Seqs

  datatype TextEditMoveDirection = Up | Right | Down | Left | End | Home

  /** `delete_char` exactly as written, on the text and cursor it reads:
      `None` where it panics. Its guard tests for a non-empty text, so a
      cursor at 0 in a non-empty text reaches `pos - 1` on 0. */
  function DeleteCharAsWritten(text: seq<char>, cursor: U16): (r: Option<(seq<char>, U16)>)
    ensures r.None? <==> |text| > 0 && (cursor == 0 || cursor > |text|)
    ensures r.Some? && |text| > 0 ==> r.value.1 == cursor - 1 && r.value.0 == RemoveAt(text, cursor - 1)
  {
    if |text| == 0 then Some((text, cursor))
    else if cursor == 0 || cursor > |text| then None
    else Some((RemoveAt(text, cursor - 1), cursor - 1))
  }

  /** Backspace at the start of a non-empty text panics. */
  lemma DeleteCharPanicsAtStart()
    ensures DeleteCharAsWritten("a", 0).None?
  {
  }

  /** Wherever the code as written does not panic on a state whose cursor is
      inside the text, it agrees with the corrected guard `cursor_pos > 0`. */
  lemma DeleteCharAsWrittenAgrees(text: seq<char>, cursor: U16)
    requires cursor <= |text|
    requires DeleteCharAsWritten(text, cursor).Some?
    ensures cursor > 0 ==> DeleteCharAsWritten(text, cursor) == Some((RemoveAt(text, cursor - 1), cursor - 1))
    ensures cursor == 0 ==> DeleteCharAsWritten(text, cursor) == Some((text, cursor))
  {
  }

  class TextEditState {
    var text: seq<char>
    var cursorPos: U16
    var selStartPos: U16
    var selEndPos: U16
    var scrollOffset: U16

    /** The cursor lies within the text (0 is before the first character,
        `|text|` after the last). */
    ghost predicate Valid()
      reads this
    {
      cursorPos <= |text|
    }

    /** `TextEditState::default()`. */
    constructor ()
      ensures Valid()
      ensures text == [] && cursorPos == 0
      ensures selStartPos == 0 && selEndPos == 0 && scrollOffset == 0
    {
      text, cursorPos := [], 0;
      selStartPos, selEndPos, scrollOffset := 0, 0, 0;
    }

    method SetText(t: seq<char>)
      modifies this`text
      ensures text == t
    {
      text := t;
    }

    method SetCursorPos(pos: U16)
      modifies this`cursorPos
      ensures cursorPos == pos
    {
      cursorPos := pos;
    }

    method SetSelStartPos(pos: U16)
      modifies this`selStartPos
      ensures selStartPos == pos
    {
      selStartPos := pos;
    }

    method SetSelEndPos(pos: U16)
      modifies this`selEndPos
      ensures selEndPos == pos
    {
      selEndPos := pos;
    }

    method SetScrollOffset(offset: U16)
      modifies this`scrollOffset
      ensures scrollOffset == offset
    {
      scrollOffset := offset;
    }

    /** Backspace: removes the character before the cursor and moves the
        cursor back onto its place; at the start of the text nothing
        changes. Guarded by `cursor_pos > 0` (see DeleteCharAsWritten). */
    method DeleteChar()
      requires Valid()
      modifies this`text, this`cursorPos
      ensures Valid()
      ensures old(cursorPos) > 0 ==>
        text == RemoveAt(old(text), old(cursorPos) - 1) && cursorPos == old(cursorPos) - 1
      ensures old(cursorPos) == 0 ==> text == old(text) && cursorPos == 0
      ensures old(text) == [] ==> text == [] && cursorPos == old(cursorPos)
    {
      if cursorPos > 0 {
        text := RemoveAt(text, cursorPos - 1);
        cursorPos := cursorPos - 1;
      }
    }

    /** Delete: removes the character under the cursor, which stays put;
        at the end of the text nothing changes. */
    method DeleteCharToRight()
      modifies this`text
      ensures old(Valid()) ==> Valid()
      ensures cursorPos < AsU16(|old(text)|) ==> text == RemoveAt(old(text), cursorPos)
      ensures cursorPos >= AsU16(|old(text)|) ==> text == old(text)
    {
      if cursorPos < AsU16(|text|) {
        text := RemoveAt(text, cursorPos);
      }
    }

    /** Puts `ch` at the cursor and moves the cursor past it. */
    method InsertChar(ch: char)
      requires cursorPos <= |text|
      requires cursorPos < 0xFFFF
      modifies this`text, this`cursorPos
      ensures Valid()
      ensures text == InsertAt(old(text), old(cursorPos), ch)
      ensures cursorPos == old(cursorPos) + 1
    {
      text := InsertAt(text, cursorPos, ch);
      cursorPos := cursorPos + 1;
    }

    /** Moves the cursor by one character (Right/Left) or to an end of the
        text (Home/End); Up and Down, and word-wise movement, do nothing. */
    method MoveCursor(direction: TextEditMoveDirection, word: bool)
      modifies this`cursorPos
      ensures old(Valid()) ==> Valid()
      ensures direction == Right ==>
        cursorPos == if old(cursorPos) < AsU16(|text|) then old(cursorPos) + 1 else old(cursorPos)
      ensures direction == Left ==>
        cursorPos == if old(cursorPos) > 0 then old(cursorPos) - 1 else old(cursorPos)
      ensures direction == End ==> cursorPos == AsU16(|text|)
      ensures direction == Home ==> cursorPos == 0
      ensures direction == Up || direction == Down ==> cursorPos == old(cursorPos)
    {
      match direction
      case Up =>
      case Down =>
      case Right =>
        if cursorPos < AsU16(|text|) {
          cursorPos := cursorPos + 1;
        }
      case Left =>
        if cursorPos > 0 {
          cursorPos := cursorPos - 1;
        }
      case End =>
        cursorPos := AsU16(|text|);
      case Home =>
        cursorPos := 0;
    }
  }

  /** Typing a character and then pressing Backspace leaves the widget as it
      was: the text and the cursor are restored. */
  method InsertThenDelete(e: TextEditState, ch: char)
    requires e.Valid()
    requires e.cursorPos < 0xFFFF
    modifies e`text, e`cursorPos
    ensures e.text == old(e.text) && e.cursorPos == old(e.cursorPos)
  {
    ghost var text0, pos0 := e.text, e.cursorPos;
    e.InsertChar(ch);
    e.DeleteChar();
    RemoveAtInsertAt(text0, pos0 as nat, ch);
  }
}
