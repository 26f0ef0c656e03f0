/** The cursor of a key-value tab: active row, active column (0 key,
    1 value, 2 add button, 3 remove button) and scroll position. */
module KvTabState {
  import opened Ints

  class KVTabState {
    var activeRow: U16
    var activeCol: U8
    var scrollPos: U16

    /** `KVTabState::default()`: the key field of the first row, unscrolled. */
    constructor ()
      ensures activeRow == 0 && activeCol == 0 && scrollPos == 0
    {
      activeRow, activeCol, scrollPos := 0, 0, 0;
    }

    method SetActiveRow(row: U16)
      modifies this`activeRow
      ensures activeRow == row
    {
      activeRow := row;
    }

    /** Stores the column as given: no bounds check. */
    method SetActiveCol(col: U8)
      modifies this`activeCol
      ensures activeCol == col
    {
      activeCol := col;
    }

    method SetScrollPos(pos: U16)
      modifies this`scrollPos
      ensures scrollPos == pos
    {
      scrollPos := pos;
    }
  }
}
