/** The key-value tab input rules: which operations one key press emits on
    the key-value table (URL params, headers), given the active row and
    column. Columns: 0 key, 1 value, 2 the add-row button, 3 the
    remove-row button. */
module KvTab {
  import opened Ints
  import opened Keys

  datatype KVTabOperation =
    | Insert(pos: nat)
    | Remove(pos: nat)
    | MoveColumn(col: U8)
    | MoveRow(row: U16)
    | AppendText(c: char)
    | PopText

  /** An operation that changes the table's rows rather than the cursor. */
  predicate ChangesRows(op: KVTabOperation)
  {
    op.Insert? || op.Remove? || op.AppendText? || op.PopText?
  }

  /** What one key press emits: the operations handed to `update_func`, in
      the order they are handed, and whether `change_func(true)` was called. */
  datatype KvTabOutput = KvTabOutput(ops: seq<KVTabOperation>, changed: bool)

  /** Ctrl+arrows move the cursor by one cell (columns bounded to 0..3, rows
      to 0..1000); Enter on the add button inserts a row below, on the
      remove button removes the row (moving up first unless at row 0);
      characters and Backspace edit the active field. */
  function ProcessKvTabInput(key: KeyEvent, row: U16, col: U8): (r: KvTabOutput)
    ensures |r.ops| <= 2
    ensures r.changed <==> exists op <- r.ops :: ChangesRows(op)
    ensures forall i :: 0 <= i < |r.ops| && ChangesRows(r.ops[i]) ==> i == |r.ops| - 1
    ensures forall op <- r.ops :: op.MoveColumn? ==>
      CtrlDown(key) && (op.col == col + 1 <= 3 || op.col + 1 == col)
    ensures forall op <- r.ops :: op.MoveRow? ==>
      op.row + 1 == row || (op.row == row + 1 && row < 1000 && CtrlDown(key))
    ensures forall op <- r.ops :: op.Insert? ==> key.code == Enter && col == 2 && op.pos == row + 1
    ensures forall op <- r.ops :: op.Remove? ==> key.code == Enter && col == 3 && op.pos == row
    ensures forall op <- r.ops :: op.AppendText? ==> key.code == Char(op.c)
    ensures forall op <- r.ops :: op.PopText? ==> key.code == Backspace
    ensures !CtrlDown(key) && key.code != Enter ==> forall op <- r.ops :: ChangesRows(op)
  {
    var ctrlDown := CtrlDown(key);
    match key.code
    case Enter =>
      if col == 2 then
        var ops := [KVTabOperation.Insert(row + 1)];
        assert ChangesRows(ops[0]);
        KvTabOutput(ops, true)
      else if col == 3 then
        var ops := (if row > 0 then [MoveRow(row - 1)] else []) + [Remove(row)];
        assert ChangesRows(ops[|ops| - 1]);
        KvTabOutput(ops, true)
      else KvTabOutput([], false)
    case Up =>
      KvTabOutput(if ctrlDown && row != 0 then [MoveRow(row - 1)] else [], false)
    case Right =>
      KvTabOutput(if ctrlDown && col < 3 then [MoveColumn(col + 1)] else [], false)
    case Left =>
      KvTabOutput(if ctrlDown && col > 0 then [MoveColumn(col - 1)] else [], false)
    case Down =>
      KvTabOutput(if ctrlDown && row < 1000 then [MoveRow(row + 1)] else [], false)
    case Char(c) =>
      assert ChangesRows([AppendText(c)][0]);
      KvTabOutput([AppendText(c)], true)
    case Backspace =>
      assert ChangesRows([PopText][0]);
      KvTabOutput([PopText], true)
    case _ =>
      KvTabOutput([], false)
  }

  /** Enter emits only on the two buttons: insert below at column 2, move up
      (unless at row 0) then remove at column 3. */
  lemma EnterOnButtons(key: KeyEvent, row: U16, col: U8)
    requires key.code == Enter
    ensures col == 2 ==> ProcessKvTabInput(key, row, col) == KvTabOutput([KVTabOperation.Insert(row + 1)], true)
    ensures col == 3 && row > 0 ==>
      ProcessKvTabInput(key, row, col) == KvTabOutput([MoveRow(row - 1), Remove(row)], true)
    ensures col == 3 && row == 0 ==> ProcessKvTabInput(key, row, col) == KvTabOutput([Remove(0)], true)
    ensures col != 2 && col != 3 ==> ProcessKvTabInput(key, row, col) == KvTabOutput([], false)
  {
  }

  /** With Ctrl, each arrow moves the cursor one cell its own way when the
      bound allows it (Right to column 3, Left to column 0, Up to row 0,
      Down to row 1000), and otherwise emits nothing; no arrow signals a
      change. */
  lemma CtrlArrows(key: KeyEvent, row: U16, col: U8)
    requires CtrlDown(key)
    ensures key.code == Right ==>
      ProcessKvTabInput(key, row, col) == KvTabOutput(if col < 3 then [MoveColumn(col + 1)] else [], false)
    ensures key.code == Left ==>
      ProcessKvTabInput(key, row, col) == KvTabOutput(if col > 0 then [MoveColumn(col - 1)] else [], false)
    ensures key.code == Up ==>
      ProcessKvTabInput(key, row, col) == KvTabOutput(if row != 0 then [MoveRow(row - 1)] else [], false)
    ensures key.code == Down ==>
      ProcessKvTabInput(key, row, col) == KvTabOutput(if row < 1000 then [MoveRow(row + 1)] else [], false)
  {
  }

  /** A column in 0..3 stays in 0..3 under every emitted column move. */
  lemma ColumnStaysInRange(key: KeyEvent, row: U16, col: U8)
    requires col <= 3
    ensures forall op <- ProcessKvTabInput(key, row, col).ops :: op.MoveColumn? ==> op.col <= 3
  {
  }

  /** Without Ctrl the arrow keys emit nothing. */
  lemma ArrowsNeedCtrl(key: KeyEvent, row: U16, col: U8)
    requires key.code in {Up, Down, Left, Right}
    requires !CtrlDown(key)
    ensures ProcessKvTabInput(key, row, col) == KvTabOutput([], false)
  {
  }

  /** Characters and Backspace edit the field whatever the modifiers. */
  lemma TextKeysIgnoreModifiers(key: KeyEvent, row: U16, col: U8)
    requires key.code.Char? || key.code == Backspace
    ensures key.code.Char? ==> ProcessKvTabInput(key, row, col) == KvTabOutput([AppendText(key.code.c)], true)
    ensures key.code == Backspace ==> ProcessKvTabInput(key, row, col) == KvTabOutput([PopText], true)
  {
  }

  /** Every other key emits nothing. */
  lemma OtherKeysEmitNothing(key: KeyEvent, row: U16, col: U8)
    requires !(key.code in {Enter, Up, Down, Left, Right, Backspace} || key.code.Char?)
    ensures ProcessKvTabInput(key, row, col) == KvTabOutput([], false)
  {
  }

  /** The key rules with Ctrl+Down bounded by the table as well: the cursor
      moves down only onto a row that exists (and, as in the source, not
      past row 1000). This is the bound the input step uses; without it the
      cursor can leave the table and Enter on the remove or add button then
      indexes past the end of the list. */
  function ProcessKvTabInputBounded(key: KeyEvent, row: U16, col: U8, rowCount: nat): (r: KvTabOutput)
    ensures r.changed == ProcessKvTabInput(key, row, col).changed
    ensures !(CtrlDown(key) && key.code == Down) ==> r == ProcessKvTabInput(key, row, col)
    ensures row + 1 < rowCount ==> r == ProcessKvTabInput(key, row, col)
    ensures row < rowCount ==> forall op <- r.ops :: op.MoveRow? ==> op.row < rowCount
  {
    var ctrlDown := CtrlDown(key);
    match key.code
    case Enter =>
      if col == 2 then KvTabOutput([KVTabOperation.Insert(row + 1)], true)
      else if col == 3 then KvTabOutput((if row > 0 then [MoveRow(row - 1)] else []) + [Remove(row)], true)
      else KvTabOutput([], false)
    case Up =>
      KvTabOutput(if ctrlDown && row != 0 then [MoveRow(row - 1)] else [], false)
    case Right =>
      KvTabOutput(if ctrlDown && col < 3 then [MoveColumn(col + 1)] else [], false)
    case Left =>
      KvTabOutput(if ctrlDown && col > 0 then [MoveColumn(col - 1)] else [], false)
    case Down =>
      KvTabOutput(if ctrlDown && row < 1000 && row + 1 < rowCount then [MoveRow(row + 1)] else [], false)
    case Char(c) =>
      KvTabOutput([AppendText(c)], true)
    case Backspace =>
      KvTabOutput([PopText], true)
    case _ =>
      KvTabOutput([], false)
  }

  /** The bounded rules differ from the source's only on Ctrl+Down from the
      last row, where they emit nothing instead of moving off the table. */
  lemma BoundedDiffersOnlyPastLastRow(key: KeyEvent, row: U16, col: U8, rowCount: nat)
    ensures ProcessKvTabInputBounded(key, row, col, rowCount) != ProcessKvTabInput(key, row, col) <==>
      CtrlDown(key) && key.code == Down && row < 1000 && row + 1 >= rowCount
  {
  }
}
