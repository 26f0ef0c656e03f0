/** One keystroke of the input loop: the key is handled by the active
    element, then Tab/BackTab move the focus. The key is a parameter (the
    terminal read is not modelled); sending the request and rewriting the
    URL from its parts are returned as flags. */
module UserInput {
  import opened Ints
  import opened Options
  import opened Strings
  import opened Keys
  import opened KvTab
  import KvData
  import RequestTab
  import AppStatusTable
  import BodyState
  import HttpMethods
  import opened UiStates

  /** A key-value table as the input step sees it: its rows and its cursor. */
  datatype KvTable = KvTable(rows: seq<KvData.KVData>, row: U16, col: U8)

  /** The text a key edit leaves: a typed character is pushed, Backspace pops. */
  function EditText(t: seq<char>, op: KVTabOperation): (r: seq<char>)
    requires op.AppendText? || op.PopText?
    ensures op.AppendText? ==> r == t + [op.c]
    ensures op.PopText? ==> r + (if t == [] then [] else [t[|t| - 1]]) == t
  {
    if op.AppendText? then t + [op.c] else PopChar(t)
  }

  /** A key edit on the table: column 0 edits the key and column 1 the value
      of row `row`; the other columns, and a row past the end, change nothing. */
  function EditRows(rows: seq<KvData.KVData>, row: U16, col: U8, op: KVTabOperation): (r: seq<KvData.KVData>)
    requires op.AppendText? || op.PopText?
    ensures |r| == |rows|
    ensures forall i :: 0 <= i < |rows| && i != row ==> r[i] == rows[i]
    ensures row < |rows| && col == 0 ==> r[row] == KvData.KVData(EditText(rows[row].key, op), rows[row].value)
    ensures row < |rows| && col == 1 ==> r[row] == KvData.KVData(rows[row].key, EditText(rows[row].value, op))
    ensures row >= |rows| || col > 1 ==> r == rows
  {
    if row < |rows| && col <= 1 then
      var kv := rows[row];
      rows[row := if col == 0 then kv.SetKey(EditText(kv.key, op)) else kv.SetValue(EditText(kv.value, op))]
    else
      rows
  }

  /** What an operation needs not to panic: `Vec::insert` at most at the
      end, with the position `row + 1` still a `u16`; `Vec::remove` before
      the end (its position, a cursor row, is always a `u16`). */
  predicate OpFits(t: KvTable, op: KVTabOperation)
  {
    match op
    case Insert(pos) => pos <= |t.rows| && pos < 0x1_0000
    case Remove(pos) => pos < |t.rows| && pos < 0x1_0000
    case _ => true
  }

  /** One operation applied to a table; `row` and `col` are the cursor read
      before the key was handled, which the text edits use. */
  function ApplyOp(t: KvTable, op: KVTabOperation, row: U16, col: U8): (r: KvTable)
    requires OpFits(t, op)
    ensures !ChangesRows(op) ==> r.rows == t.rows
    ensures ChangesRows(op) ==> r.row == t.row && r.col == t.col
    ensures op.MoveRow? ==> r == t.(row := op.row)
    ensures op.MoveColumn? ==> r == t.(col := op.col)
    ensures op.Insert? ==> |r.rows| == |t.rows| + 1 && r.rows[op.pos] == KvData.Default
    ensures |t.rows| >= 1 ==> |r.rows| >= 1
  {
    match op
    case Insert(pos) => t.(rows := InsertRow(t.rows, pos, KvData.Default))
    case Remove(pos) => t.(rows := RemoveRowKeepingOne(t.rows, pos))
    case MoveColumn(c) => t.(col := c)
    case MoveRow(r) => t.(row := r)
    case AppendText(_) => t.(rows := EditRows(t.rows, row, col, op))
    case PopText => t.(rows := EditRows(t.rows, row, col, op))
  }

  /** Every operation of `ops`, applied in turn, fits the table it meets. */
  predicate OpsFit(t: KvTable, ops: seq<KVTabOperation>, row: U16, col: U8)
    decreases |ops|, 0
  {
    ops == [] ||
    (OpsFit(t, ops[..|ops| - 1], row, col) &&
     OpFits(ApplyOps(t, ops[..|ops| - 1], row, col), ops[|ops| - 1]))
  }

  /** The operations of `ops` applied in order. */
  function ApplyOps(t: KvTable, ops: seq<KVTabOperation>, row: U16, col: U8): (r: KvTable)
    requires OpsFit(t, ops, row, col)
    decreases |ops|, 1
  {
    if ops == [] then t
    else ApplyOp(ApplyOps(t, ops[..|ops| - 1], row, col), ops[|ops| - 1], row, col)
  }

  lemma {:induction false} OpsFitPrefix(t: KvTable, ops: seq<KVTabOperation>, row: U16, col: U8, k: nat)
    requires OpsFit(t, ops, row, col)
    requires k <= |ops|
    ensures OpsFit(t, ops[..k], row, col)
    decreases |ops|
  {
    if k < |ops| {
      var init := ops[..|ops| - 1];
      assert init[..k] == ops[..k];
      OpsFitPrefix(t, init, row, col, k);
    } else {
      assert ops[..k] == ops;
    }
  }

  /** A list without row-changing operations leaves the rows as they are. */
  lemma {:induction false} CursorOpsKeepRows(t: KvTable, ops: seq<KVTabOperation>, row: U16, col: U8)
    requires forall op <- ops :: !ChangesRows(op)
    ensures OpsFit(t, ops, row, col)
    ensures ApplyOps(t, ops, row, col).rows == t.rows
    decreases |ops|
  {
    if ops != [] {
      assert ops[|ops| - 1] in ops;
      CursorOpsKeepRows(t, ops[..|ops| - 1], row, col);
    }
  }

  /** The operations one key emits on a table with cursor (`t.row`, `t.col`),
      under the corrected Ctrl+Down bound. */
  function KeyOps(t: KvTable, key: KeyEvent): seq<KVTabOperation>
  {
    ProcessKvTabInputBounded(key, t.row, t.col, |t.rows|).ops
  }

  /** The key can be handled on the table without a panic. */
  predicate KvFits(t: KvTable, key: KeyEvent)
  {
    OpsFit(t, KeyOps(t, key), t.row, t.col)
  }

  /** The table after one key. */
  function KvStep(t: KvTable, key: KeyEvent): KvTable
    requires KvFits(t, key)
  {
    ApplyOps(t, KeyOps(t, key), t.row, t.col)
  }

  lemma ApplyOne(t: KvTable, op: KVTabOperation, row: U16, col: U8)
    ensures OpsFit(t, [op], row, col) <==> OpFits(t, op)
    ensures OpFits(t, op) ==> ApplyOps(t, [op], row, col) == ApplyOp(t, op, row, col)
  {
    assert [op][..0] == [];
  }

  lemma ApplyTwo(t: KvTable, op1: KVTabOperation, op2: KVTabOperation, row: U16, col: U8)
    requires OpFits(t, op1)
    ensures OpsFit(t, [op1, op2], row, col) <==> OpFits(ApplyOp(t, op1, row, col), op2)
    ensures OpsFit(t, [op1, op2], row, col) ==>
      ApplyOps(t, [op1, op2], row, col) == ApplyOp(ApplyOp(t, op1, row, col), op2, row, col)
  {
    assert [op1, op2][..1] == [op1];
    ApplyOne(t, op1, row, col);
  }

  /** A key can be handled on a table exactly when Enter on the add button
      has room to insert below the cursor (and `row + 1` is a `u16`) and
      Enter on the remove button has a row under the cursor. */
  lemma KvFitsExactly(t: KvTable, key: KeyEvent)
    ensures KvFits(t, key) <==>
      (key.code == Enter && t.col == 2 ==> t.row + 1 <= |t.rows| && t.row + 1 < 0x1_0000) &&
      (key.code == Enter && t.col == 3 ==> t.row < |t.rows|)
  {
    var ops := KeyOps(t, key);
    if key.code == Enter && t.col == 3 && t.row > 0 {
      assert ops == [MoveRow(t.row - 1), Remove(t.row)];
      ApplyTwo(t, MoveRow(t.row - 1), Remove(t.row), t.row, t.col);
    } else if |ops| == 1 {
      assert ops == [ops[0]];
      ApplyOne(t, ops[0], t.row, t.col);
    } else {
      assert ops == [];
    }
  }

  /** The table cursor a key leaves: Ctrl+Right and Ctrl+Left move it one
      column right and left within 0..3; Ctrl+Up, and Enter on the remove
      button, move it up a row unless on row 0; Ctrl+Down moves it down onto
      the next row when there is one (and the row is below 1000); every other
      key leaves it where it was. */
  lemma KvCursorMoves(t: KvTable, key: KeyEvent)
    requires KvFits(t, key)
    requires t.col <= 3
    ensures KvStep(t, key).col <= 3
    ensures KvStep(t, key).col == t.col + 1 <==> CtrlDown(key) && key.code == Right && t.col < 3
    ensures KvStep(t, key).col + 1 == t.col <==> CtrlDown(key) && key.code == Left && t.col > 0
    ensures KvStep(t, key).col != t.col ==> CtrlDown(key) && (key.code == Right || key.code == Left)
    ensures KvStep(t, key).row + 1 == t.row <==>
      t.row > 0 && ((CtrlDown(key) && key.code == Up) || (key.code == Enter && t.col == 3))
    ensures KvStep(t, key).row == t.row + 1 <==>
      CtrlDown(key) && key.code == Down && t.row < 1000 && t.row + 1 < |t.rows|
    ensures KvStep(t, key).row != t.row ==>
      KvStep(t, key).row + 1 == t.row || KvStep(t, key).row == t.row + 1
  {
    var ops := KeyOps(t, key);
    if key.code == Enter && t.col == 3 && t.row > 0 {
      assert ops == [MoveRow(t.row - 1), Remove(t.row)];
      ApplyTwo(t, MoveRow(t.row - 1), Remove(t.row), t.row, t.col);
    } else if |ops| == 1 {
      assert ops == [ops[0]];
      ApplyOne(t, ops[0], t.row, t.col);
    } else {
      assert ops == [];
    }
  }

  /** The key rules as the source writes them, with Ctrl+Down bounded only
      at row 1000. */
  predicate KvFitsAsWritten(t: KvTable, key: KeyEvent)
  {
    OpsFit(t, ProcessKvTabInput(key, t.row, t.col).ops, t.row, t.col)
  }

  function KvStepAsWritten(t: KvTable, key: KeyEvent): KvTable
    requires KvFitsAsWritten(t, key)
  {
    ApplyOps(t, ProcessKvTabInput(key, t.row, t.col).ops, t.row, t.col)
  }

  /** As written, the cursor leaves the table: on the single default header
      row, Ctrl+Down moves to row 1, three Ctrl+Right reach the remove button,
      and Enter then removes row 1 of a one-row list, which panics in
      `Vec::remove`; at the add button, Enter inserts at 2, past the end. */
  lemma CtrlDownLeavesTable()
    ensures var t0 := KvTable([KvData.Default], 0, 0);
      var down := KeyEvent(Down, CONTROL);
      KvFitsAsWritten(t0, down) && KvStepAsWritten(t0, down) == KvTable([KvData.Default], 1, 0)
    ensures var right := KeyEvent(Right, CONTROL);
      (forall c: U8 :: c < 3 ==>
        KvFitsAsWritten(KvTable([KvData.Default], 1, c), right) &&
        KvStepAsWritten(KvTable([KvData.Default], 1, c), right) == KvTable([KvData.Default], 1, c + 1))
    ensures !KvFitsAsWritten(KvTable([KvData.Default], 1, 3), KeyEvent(Enter, NONE))
    ensures !KvFitsAsWritten(KvTable([KvData.Default], 1, 2), KeyEvent(Enter, NONE))
  {
    var t0 := KvTable([KvData.Default], 0, 0);
    ApplyOne(t0, MoveRow(1), 0, 0);
    forall c: U8 | c < 3
      ensures KvFitsAsWritten(KvTable([KvData.Default], 1, c), KeyEvent(Right, CONTROL))
      ensures KvStepAsWritten(KvTable([KvData.Default], 1, c), KeyEvent(Right, CONTROL)) ==
        KvTable([KvData.Default], 1, c + 1)
    {
      ApplyOne(KvTable([KvData.Default], 1, c), MoveColumn(c + 1), 1, c);
    }
    var t3 := KvTable([KvData.Default], 1, 3);
    assert ProcessKvTabInput(KeyEvent(Enter, NONE), 1, 3).ops == [MoveRow(0), Remove(1)];
    ApplyTwo(t3, MoveRow(0), Remove(1), 1, 3);
    var t2 := KvTable([KvData.Default], 1, 2);
    assert ProcessKvTabInput(KeyEvent(Enter, NONE), 1, 2).ops == [KVTabOperation.Insert(2)];
    ApplyOne(t2, KVTabOperation.Insert(2), 1, 2);
  }

  /** With the corrected bound, a cursor on an existing row stays on one
      whatever key is pressed, so no key can make the table panic. */
  lemma CursorStaysOnRows(t: KvTable, key: KeyEvent)
    requires t.row < |t.rows| < 0x1_0000
    requires t.col <= 3
    ensures KvFits(t, key)
    ensures KvStep(t, key).row < |KvStep(t, key).rows|
    ensures KvStep(t, key).col <= 3
  {
    KvFitsExactly(t, key);
    KvCursorMoves(t, key);
    var ops := KeyOps(t, key);
    if key.code == Enter && t.col == 3 && t.row > 0 {
      assert ops == [MoveRow(t.row - 1), Remove(t.row)];
      ApplyTwo(t, MoveRow(t.row - 1), Remove(t.row), t.row, t.col);
    } else if |ops| == 1 {
      assert ops == [ops[0]];
      ApplyOne(t, ops[0], t.row, t.col);
    } else {
      assert ops == [];
    }
  }

  /** A typed character or Backspace edits the field under the cursor:
      the key at column 0, the value at column 1, nothing on the buttons,
      and no other row. */
  lemma KvTextKeys(t: KvTable, key: KeyEvent)
    requires key.code.Char? || key.code == Backspace
    ensures KvFits(t, key)
    ensures KvStep(t, key).row == t.row && KvStep(t, key).col == t.col
    ensures KvStep(t, key).rows == EditRows(t.rows, t.row, t.col,
      if key.code.Char? then AppendText(key.code.c) else PopText)
  {
    var op := if key.code.Char? then AppendText(key.code.c) else PopText;
    assert KeyOps(t, key) == [op];
    ApplyOne(t, op, t.row, t.col);
  }

  /** Every table key keeps a non-empty row list non-empty, which is what
      keeps the header list from ever being empty. */
  lemma {:induction false} OpsKeepRows(t: KvTable, ops: seq<KVTabOperation>, row: U16, col: U8)
    requires OpsFit(t, ops, row, col)
    requires |t.rows| >= 1
    ensures |ApplyOps(t, ops, row, col).rows| >= 1
    decreases |ops|
  {
    if ops != [] {
      OpsKeepRows(t, ops[..|ops| - 1], row, col);
    }
  }

  /** The content type select and the widget focus of the body tab. */
  datatype BodySelect = BodySelect(element: BodyState.BodyUIElement, selIndex: U8)

  /** A key on the body tab. With Ctrl, the arrows move between the widgets
      (text area, content type select, raw content type select); on the
      content type select, Enter opens or closes it and Up/Down, while it is
      open, move the selection within the `optionCount` options. */
  function BodyKey(b: BodySelect, optionCount: nat, key: KeyEvent): (r: BodySelect)
    ensures b.selIndex < optionCount ==> r.selIndex < optionCount
    ensures r.selIndex != b.selIndex ==>
      r.element == b.element == BodyState.ContentType(true) &&
      ((key.code == Up && r.selIndex + 1 == b.selIndex) ||
       (key.code == Down && r.selIndex == b.selIndex + 1))
  {
    var ctrl := CtrlDown(key);
    match b.element
    case TextArea =>
      if key.code == Up && ctrl then b.(element := BodyState.ContentType(false)) else b
    case ContentType(isOpen) =>
      (match key.code
       case Right => if ctrl then b.(element := BodyState.RawContentType(false)) else b
       case Left => if ctrl then b.(element := BodyState.TextArea) else b
       case Enter => b.(element := BodyState.ContentType(!isOpen))
       case Up => if isOpen && b.selIndex > 0 then b.(selIndex := b.selIndex - 1) else b
       case Down =>
         if isOpen && b.selIndex + 1 < AsU8(optionCount) then b.(selIndex := b.selIndex + 1) else b
       case _ => b)
    case RawContentType(_) =>
      (match key.code
       case Right => if ctrl then b.(element := BodyState.TextArea) else b
       case Left => if ctrl then b.(element := BodyState.ContentType(false)) else b
       case _ => b)
  }

  /** The widget moves of the body tab: Ctrl+Up from the text area to the
      closed content type select; from the content type select Ctrl+Right to
      the closed raw select and Ctrl+Left to the text area; from the raw
      select Ctrl+Right to the text area and Ctrl+Left to the closed content
      type select. Only Ctrl+arrows and Enter change the widget. */
  lemma BodyElementCycle(b: BodySelect, n: nat, key: KeyEvent)
    ensures b.element == BodyState.TextArea && key == KeyEvent(Up, CONTROL) ==>
      BodyKey(b, n, key).element == BodyState.ContentType(false)
    ensures b.element.ContentType? && key == KeyEvent(Right, CONTROL) ==>
      BodyKey(b, n, key).element == BodyState.RawContentType(false)
    ensures b.element.ContentType? && key == KeyEvent(Left, CONTROL) ==>
      BodyKey(b, n, key).element == BodyState.TextArea
    ensures b.element.RawContentType? && key == KeyEvent(Right, CONTROL) ==>
      BodyKey(b, n, key).element == BodyState.TextArea
    ensures b.element.RawContentType? && key == KeyEvent(Left, CONTROL) ==>
      BodyKey(b, n, key).element == BodyState.ContentType(false)
    ensures BodyKey(b, n, key).element != b.element ==>
      key.code == Enter || (CtrlDown(key) && key.code in {Up, Left, Right})
  {
  }

  /** Enter toggles the content type select: twice gives back the state. */
  lemma EnterTogglesSelect(b: BodySelect, n: nat, key: KeyEvent)
    requires b.element.ContentType? && key.code == Enter
    ensures BodyKey(b, n, key).element == BodyState.ContentType(!b.element.isOpen)
    ensures BodyKey(BodyKey(b, n, key), n, key) == b
  {
  }

  /** The response scroll step: 4 lines with Ctrl, 1 without. */
  function ScrollBy(key: KeyEvent): (r: nat)
    ensures r == 1 || r == 4
  {
    if CtrlDown(key) then 4 else 1
  }

  /** Scrolling up by `k` from `pos`, stopping at the top. */
  function ScrollUp(pos: U16, k: nat): (r: U16)
    ensures r <= pos
    ensures pos >= k ==> r + k == pos
    ensures pos < k ==> r == 0
  {
    if pos as int - k >= 0 then pos - k else 0
  }

  /** Scrolling down by `k` from `pos`, only if that lands on one of the
      `lineCount` lines (counted as a `len() as u16`); otherwise staying. */
  function ScrollDown(pos: U16, k: nat, lineCount: nat): (r: U16)
    ensures pos + k < AsU16(lineCount) ==> r == pos + k
    ensures pos + k >= AsU16(lineCount) ==> r == pos
  {
    if pos + k < AsU16(lineCount) then pos + k else pos
  }

  /** A position on the lines stays on them, and scrolling down that moved
      is undone by scrolling up by as much. */
  lemma ScrollStaysOnLines(pos: U16, k: nat, lineCount: nat)
    requires k > 0
    ensures pos < AsU16(lineCount) ==> ScrollUp(pos, k) < AsU16(lineCount)
    ensures pos < AsU16(lineCount) ==> ScrollDown(pos, k, lineCount) < AsU16(lineCount)
    ensures ScrollDown(pos, k, lineCount) != pos ==> ScrollUp(ScrollDown(pos, k, lineCount), k) == pos
  {
  }

  /** A character key on the method selector: digits 1-9 choose the method
      with that number minus one, '0' keeps the current one, and any
      other character chooses by letter. */
  function MethodKey(m: HttpMethods.Method, c: char): (r: HttpMethods.Method)
    ensures '1' <= c <= '9' ==> r == MethodFromVal(c as int - '1' as int)
    ensures c == '0' ==> r == m
    ensures !('0' <= c <= '9') ==> r == MethodFromChar(c)
  {
    match ToDigit(c)
    case Some(num) => if num > 0 then MethodFromVal(num - 1) else m
    case None => MethodFromChar(c)
  }

  /** What the step reads and changes of the application state. */
  datatype UiView = UiView(
    url: seq<char>,
    requestMethod: HttpMethods.Method,
    activeRequestTab: RequestTab.RequestTabs,
    activeElement: UIElement,
    editorMode: EditorMode,
    inputMode: InputMode,
    appStatus: AppStatusTable.AppStatus,
    headers: KvTable,
    queryParams: KvTable,
    body: BodySelect,
    bodyOptionCount: nat,
    scrollPos: U16,
    responseLineCount: nat)

  /** The outcome of a step: the new state, and whether to exit, to send the
      request, and to rewrite the URL from its query parameters. */
  datatype StepResult = StepResult(view: UiView, exit: bool, sendRequest: bool, rebuildUrl: bool)

  /** Keys are read only in the normal editor or input mode. */
  predicate Gate(v: UiView)
  {
    v.editorMode == EditorMode.Normal || v.inputMode == InputMode.Normal
  }

  /** The table the active key-value tab edits, if one is active. */
  predicate OnUrlParams(v: UiView)
  {
    v.activeElement == RequestTabsElem && v.activeRequestTab == RequestTab.UrlParams
  }

  predicate OnHeaders(v: UiView)
  {
    v.activeElement == RequestTabsElem && v.activeRequestTab == RequestTab.Headers
  }

  /** The step does not panic on the event. */
  predicate StepFits(v: UiView, ev: Event)
  {
    Gate(v) && ev.Key? ==>
      (OnUrlParams(v) ==> KvFits(v.queryParams, ev.key)) &&
      (OnHeaders(v) ==> KvFits(v.headers, ev.key))
  }

  /** A key in the URL bar: characters are typed, Backspace deletes, Enter
      marks the request as processing. */
  function UrlView(v: UiView, key: KeyEvent): UiView
  {
    match key.code
    case Char(c) => v.(url := v.url + [c])
    case Backspace => v.(url := PopChar(v.url))
    case Enter => v.(appStatus := AppStatusTable.PROCESSING)
    case _ => v
  }

  /** A key in the content of the active request tab. */
  function TabsElemView(v: UiView, key: KeyEvent): UiView
    requires v.activeRequestTab == RequestTab.UrlParams ==> KvFits(v.queryParams, key)
    requires v.activeRequestTab == RequestTab.Headers ==> KvFits(v.headers, key)
  {
    match v.activeRequestTab
    case UrlParams => v.(queryParams := KvStep(v.queryParams, key))
    case Headers => v.(headers := KvStep(v.headers, key))
    case Body => v.(body := BodyKey(v.body, v.bodyOptionCount, key))
    case Authorization => v
  }

  /** A key on the request tab headings: Right and Left change the tab. */
  function TabsHeadView(v: UiView, key: KeyEvent): UiView
  {
    match key.code
    case Right => v.(activeRequestTab := NextReqTab(v.activeRequestTab))
    case Left => v.(activeRequestTab := PreviousReqTab(v.activeRequestTab))
    case _ => v
  }

  /** A key in the response area: Up and Down scroll. */
  function ResponseView(v: UiView, key: KeyEvent): UiView
  {
    var k := ScrollBy(key);
    match key.code
    case Up => v.(scrollPos := ScrollUp(v.scrollPos, k))
    case Down => v.(scrollPos := ScrollDown(v.scrollPos, k, v.responseLineCount))
    case _ => v
  }

  /** A key on the method selector: characters choose the method. */
  function MethodView(v: UiView, key: KeyEvent): UiView
  {
    match key.code
    case Char(c) => v.(requestMethod := MethodKey(v.requestMethod, c))
    case _ => v
  }

  /** The active element's handling of a key: Enter sends the request from
      the URL bar and the send button, and a changing key on the URL
      parameters tab asks for the URL to be rewritten. */
  function ElementStep(v: UiView, key: KeyEvent): (r: StepResult)
    requires OnUrlParams(v) ==> KvFits(v.queryParams, key)
    requires OnHeaders(v) ==> KvFits(v.headers, key)
    ensures !r.exit && r.view.activeElement == v.activeElement
    ensures r.sendRequest <==> key.code == Enter && (v.activeElement == URL || v.activeElement == SendButton)
    ensures r.rebuildUrl <==> OnUrlParams(v) && ProcessKvTabInput(key, v.queryParams.row, v.queryParams.col).changed
  {
    match v.activeElement
    case URL => StepResult(UrlView(v, key), false, key.code == Enter, false)
    case RequestTabsElem =>
      var rebuild := OnUrlParams(v) && ProcessKvTabInput(key, v.queryParams.row, v.queryParams.col).changed;
      StepResult(TabsElemView(v, key), false, false, rebuild)
    case RequestTabsHead => StepResult(TabsHeadView(v, key), false, false, false)
    case ResponseArea => StepResult(ResponseView(v, key), false, false, false)
    case SendButton => StepResult(v, false, key.code == Enter, false)
    case Method => StepResult(MethodView(v, key), false, false, false)
  }

  /** The focus move after the element has handled the key. */
  function GlobalKey(e: UIElement, code: KeyCode): (r: UIElement)
    ensures code == Tab ==> r == NextElement(e)
    ensures code == BackTab ==> r == PreviousElement(e)
    ensures code != Tab && code != BackTab ==> r == e
  {
    match code
    case Tab => NextElement(e)
    case BackTab => PreviousElement(e)
    case _ => e
  }

  /** One keystroke: outside the normal modes, or for a non-key event,
      nothing happens; Esc exits before anything else; otherwise the active
      element handles the key and then Tab/BackTab move the focus. The header
      list stays non-empty. */
  function Step(v: UiView, ev: Event): (r: StepResult)
    requires StepFits(v, ev)
    ensures r.exit <==> Gate(v) && ev.Key? && ev.key.code == Esc
    ensures !(Gate(v) && ev.Key?) || r.exit ==> r.view == v && !r.sendRequest && !r.rebuildUrl
    ensures |v.headers.rows| >= 1 ==> |r.view.headers.rows| >= 1
  {
    if !Gate(v) then StepResult(v, false, false, false)
    else
      match ev
      case OtherEvent => StepResult(v, false, false, false)
      case Key(key) =>
        if key.code == Esc then StepResult(v, true, false, false)
        else
          var e := ElementStep(v, key);
          assert |v.headers.rows| >= 1 ==> |e.view.headers.rows| >= 1 by {
            if OnHeaders(v) && |v.headers.rows| >= 1 {
              OpsKeepRows(v.headers, KeyOps(v.headers, key), v.headers.row, v.headers.col);
            }
          }
          e.(view := e.view.(activeElement := GlobalKey(e.view.activeElement, key.code)))
  }

  /** Tab and BackTab change nothing but the focus: no element acts on them. */
  lemma TabOnlyMovesFocus(v: UiView, key: KeyEvent)
    requires Gate(v)
    requires key.code == Tab || key.code == BackTab
    ensures StepFits(v, Key(key))
    ensures Step(v, Key(key)).view ==
      v.(activeElement := if key.code == Tab then NextElement(v.activeElement) else PreviousElement(v.activeElement))
    ensures !Step(v, Key(key)).sendRequest && !Step(v, Key(key)).rebuildUrl
  {
    CursorOpsKeepRows(v.queryParams, KeyOps(v.queryParams, key), v.queryParams.row, v.queryParams.col);
    CursorOpsKeepRows(v.headers, KeyOps(v.headers, key), v.headers.row, v.headers.col);
    assert KeyOps(v.queryParams, key) == [] && KeyOps(v.headers, key) == [];
  }

  /** In the response area, Up and Down scroll by 1 (by 4 with Ctrl), Up
      stopping at the top and Down only onto a line of the response; the
      position stays on the lines. */
  lemma ResponseScrolling(v: UiView, key: KeyEvent)
    requires Gate(v) && v.activeElement == ResponseArea
    requires key.code == Up || key.code == Down
    ensures StepFits(v, Key(key))
    ensures var p := Step(v, Key(key)).view.scrollPos;
      var k := if key.modifiers == CONTROL then 4 else 1;
      (key.code == Up ==> p == if v.scrollPos >= k then v.scrollPos - k else 0) &&
      (key.code == Down ==> p == if v.scrollPos + k < AsU16(v.responseLineCount) then v.scrollPos + k else v.scrollPos) &&
      (v.scrollPos < AsU16(v.responseLineCount) ==> p < AsU16(v.responseLineCount))
    ensures Step(v, Key(key)).view == v.(scrollPos := Step(v, Key(key)).view.scrollPos)
  {
    ScrollStaysOnLines(v.scrollPos, ScrollBy(key), v.responseLineCount);
  }

  /** On the method selector, a digit 1-9 picks that method number minus
      one, '0' changes nothing, and a letter picks by letter. */
  lemma MethodSelection(v: UiView, c: char, mods: KeyModifiers)
    requires Gate(v) && v.activeElement == Method
    ensures StepFits(v, Key(KeyEvent(Char(c), mods)))
    ensures var m := Step(v, Key(KeyEvent(Char(c), mods))).view.requestMethod;
      ('1' <= c <= '9' ==> m == MethodFromVal(c as int - '1' as int)) &&
      (c == '0' ==> m == v.requestMethod) &&
      (!('0' <= c <= '9') ==> m == MethodFromChar(c))
  {
  }

  /** The content type selection of the body tab stays among the options. */
  lemma BodySelectionInRange(v: UiView, key: KeyEvent)
    requires Gate(v) && v.body.selIndex < v.bodyOptionCount
    requires StepFits(v, Key(key))
    ensures Step(v, Key(key)).view.body.selIndex < v.bodyOptionCount
  {
    var b := Step(v, Key(key)).view.body;
    if key.code != Esc && v.activeElement == RequestTabsElem && v.activeRequestTab == RequestTab.Body {
      assert b == BodyKey(v.body, v.bodyOptionCount, key);
    } else {
      assert b == v.body;
    }
  }

  /** The state the step reads and changes, gathered from the objects. */
  function Snapshot(s: UiState): UiView
    reads s, s.requestHeadersUi, s.queryParamsUi, s.body, s.response
  {
    UiView(s.url, s.requestMethod, s.activeRequestTab, s.activeElement, s.editorMode, s.inputMode,
      s.appStatus, HeadersTable(s), QueryParamsTable(s),
      BodySelect(s.body.activeBodyElement, s.body.bodyContentSelIndex), |s.body.bodyContentOptions|,
      s.response.scrollPos, |s.response.response|)
  }

  function HeadersTable(s: UiState): KvTable
    reads s, s.requestHeadersUi
  {
    KvTable(s.requestHeaders, s.requestHeadersUi.activeRow, s.requestHeadersUi.activeCol)
  }

  function QueryParamsTable(s: UiState): KvTable
    reads s, s.queryParamsUi
  {
    KvTable(s.urlQueryParams, s.queryParamsUi.activeRow, s.queryParamsUi.activeCol)
  }

  /** The header closure of the input handler: one operation. */
  method ApplyHeaderOp(s: UiState, op: KVTabOperation, row: U16, col: U8)
    requires OpFits(HeadersTable(s), op)
    modifies s`requestHeaders, s.requestHeadersUi`activeRow, s.requestHeadersUi`activeCol
    ensures HeadersTable(s) == ApplyOp(old(HeadersTable(s)), op, row, col)
  {
    match op
    case Insert(pos) =>
      s.InsertHeader(pos, KvData.Default);
    case Remove(pos) =>
      s.RemoveHeader(pos);
    case MoveColumn(c) =>
      s.requestHeadersUi.SetActiveCol(c);
    case MoveRow(r) =>
      s.requestHeadersUi.SetActiveRow(r);
    case _ =>
      if row < |s.requestHeaders| {
        var header := s.requestHeaders[row];
        if col == 0 {
          s.requestHeaders := s.requestHeaders[row := header.SetKey(EditText(header.key, op))];
        }
        if col == 1 {
          s.requestHeaders := s.requestHeaders[row := header.SetValue(EditText(header.value, op))];
        }
      }
  }

  /** The URL parameter closure of the input handler: one operation. An
      emptied parameter list gets a default row inserted at 0. */
  method ApplyQueryParamOp(s: UiState, op: KVTabOperation, row: U16, col: U8)
    requires OpFits(QueryParamsTable(s), op)
    modifies s`urlQueryParams, s.queryParamsUi`activeRow, s.queryParamsUi`activeCol
    ensures QueryParamsTable(s) == ApplyOp(old(QueryParamsTable(s)), op, row, col)
  {
    match op
    case Insert(pos) =>
      s.InsertUrlParam(pos, KvData.Default);
    case Remove(pos) =>
      s.RemoveUrlParam(pos);
      if |s.urlQueryParams| == 0 {
        s.InsertUrlParam(0, KvData.Default);
      }
    case MoveColumn(c) =>
      s.queryParamsUi.SetActiveCol(c);
    case MoveRow(r) =>
      s.queryParamsUi.SetActiveRow(r);
    case _ =>
      if row < |s.urlQueryParams| {
        var param := s.urlQueryParams[row];
        if col == 0 {
          s.urlQueryParams := s.urlQueryParams[row := param.SetKey(EditText(param.key, op))];
        }
        if col == 1 {
          s.urlQueryParams := s.urlQueryParams[row := param.SetValue(EditText(param.value, op))];
        }
      }
  }

  /** A key on the headers tab: the emitted operations, applied in order. */
  method HandleHeadersKey(s: UiState, key: KeyEvent)
    requires KvFits(HeadersTable(s), key)
    modifies s`requestHeaders, s.requestHeadersUi`activeRow, s.requestHeadersUi`activeCol
    ensures HeadersTable(s) == KvStep(old(HeadersTable(s)), key)
  {
    var t0 := HeadersTable(s);
    var row := s.requestHeadersUi.activeRow;
    var col := s.requestHeadersUi.activeCol;
    var out := ProcessKvTabInputBounded(key, row, col, |s.requestHeaders|);
    var ops := out.ops;
    for i := 0 to |ops|
      invariant OpsFit(t0, ops[..i], row, col)
      invariant HeadersTable(s) == ApplyOps(t0, ops[..i], row, col)
    {
      OpsFitPrefix(t0, ops, row, col, i + 1);
      assert ops[..i + 1][..i] == ops[..i];
      ApplyHeaderOp(s, ops[i], row, col);
    }
    assert ops[..|ops|] == ops;
  }

  /** A key on the URL parameters tab: the emitted operations, applied in
      order; the result says whether the URL is to be rewritten. */
  method HandleUrlParamsKey(s: UiState, key: KeyEvent) returns (updateUrl: bool)
    requires KvFits(QueryParamsTable(s), key)
    modifies s`urlQueryParams, s.queryParamsUi`activeRow, s.queryParamsUi`activeCol
    ensures QueryParamsTable(s) == KvStep(old(QueryParamsTable(s)), key)
    ensures updateUrl == ProcessKvTabInput(key, old(s.queryParamsUi.activeRow), old(s.queryParamsUi.activeCol)).changed
  {
    var t0 := QueryParamsTable(s);
    var row := s.queryParamsUi.activeRow;
    var col := s.queryParamsUi.activeCol;
    var out := ProcessKvTabInputBounded(key, row, col, |s.urlQueryParams|);
    var ops := out.ops;
    for i := 0 to |ops|
      invariant OpsFit(t0, ops[..i], row, col)
      invariant QueryParamsTable(s) == ApplyOps(t0, ops[..i], row, col)
    {
      OpsFitPrefix(t0, ops, row, col, i + 1);
      assert ops[..i + 1][..i] == ops[..i];
      ApplyQueryParamOp(s, ops[i], row, col);
    }
    assert ops[..|ops|] == ops;
    updateUrl := out.changed;
  }

  /** A key on the body tab. */
  method HandleBodyKey(s: UiState, key: KeyEvent)
    modifies s.body`activeBodyElement, s.body`bodyContentSelIndex
    ensures BodySelect(s.body.activeBodyElement, s.body.bodyContentSelIndex) ==
      BodyKey(old(BodySelect(s.body.activeBodyElement, s.body.bodyContentSelIndex)), |s.body.bodyContentOptions|, key)
  {
    var b := s.body;
    match b.activeBodyElement {
      case TextArea =>
        if key.code == Up && key.modifiers == CONTROL {
          b.SetActiveBodyElement(BodyState.ContentType(false));
        }
      case ContentType(isOpen) =>
        match key.code {
          case Right =>
            if key.modifiers == CONTROL {
              b.SetActiveBodyElement(BodyState.RawContentType(false));
            }
          case Left =>
            if key.modifiers == CONTROL {
              b.SetActiveBodyElement(BodyState.TextArea);
            }
          case Enter =>
            if isOpen {
              b.SetActiveBodyElement(BodyState.ContentType(false));
            } else {
              b.SetActiveBodyElement(BodyState.ContentType(true));
            }
          case Up =>
            if isOpen {
              var sel := b.bodyContentSelIndex;
              if sel > 0 {
                b.SetBodyContentSelIndex(sel - 1);
              }
            }
          case Down =>
            if isOpen {
              var sel := b.bodyContentSelIndex + 1;
              if sel < AsU8(|b.bodyContentOptions|) {
                b.SetBodyContentSelIndex(sel);
              }
            }
          case _ =>
        }
      case RawContentType(_) =>
        match key.code {
          case Right =>
            if key.modifiers == CONTROL {
              b.SetActiveBodyElement(BodyState.TextArea);
            }
          case Left =>
            if key.modifiers == CONTROL {
              b.SetActiveBodyElement(BodyState.ContentType(false));
            }
          case _ =>
        }
    }
  }

  /** A key in the response area. */
  method HandleResponseKey(s: UiState, key: KeyEvent)
    modifies s.response`scrollPos
    ensures Snapshot(s) == ResponseView(old(Snapshot(s)), key)
    ensures key.code == Up ==> s.response.scrollPos == ScrollUp(old(s.response.scrollPos), ScrollBy(key))
    ensures key.code == Down ==>
      s.response.scrollPos == ScrollDown(old(s.response.scrollPos), ScrollBy(key), |s.response.response|)
    ensures key.code != Up && key.code != Down ==> s.response.scrollPos == old(s.response.scrollPos)
  {
    var pos := s.response.scrollPos;
    var scrollBy: nat;
    if key.modifiers == CONTROL {
      scrollBy := 4;
    } else {
      scrollBy := 1;
    }
    match key.code {
      case Up =>
        var newPos: int := pos as int - scrollBy;
        if newPos >= 0 {
          s.response.SetScrollPos(newPos);
        } else {
          s.response.SetScrollPos(0);
        }
      case Down =>
        var newPos := pos + scrollBy;
        if newPos < AsU16(|s.response.response|) {
          s.response.SetScrollPos(newPos);
        }
      case _ =>
    }
  }

  /** A key on the method selector. */
  method HandleMethodKey(s: UiState, key: KeyEvent)
    modifies s`requestMethod
    ensures Snapshot(s) == MethodView(old(Snapshot(s)), key)
    ensures key.code.Char? ==> s.requestMethod == MethodKey(old(s.requestMethod), key.code.c)
    ensures !key.code.Char? ==> s.requestMethod == old(s.requestMethod)
  {
    match key.code {
      case Char(c) =>
        match ToDigit(c) {
          case Some(num) =>
            if num > 0 {
              s.SetMethodFromVal(num - 1);
            }
          case None =>
            s.SetMethodFromChar(c);
        }
      case _ =>
    }
  }

  /** A key in the URL bar: characters are typed, Backspace deletes, Enter
      marks the request as processing and sends it. */
  method HandleUrlKey(s: UiState, key: KeyEvent) returns (sendRequest: bool)
    modifies s`url, s`appStatus
    ensures Snapshot(s) == UrlView(old(Snapshot(s)), key)
    ensures sendRequest <==> key.code == Enter
  {
    sendRequest := false;
    match key.code {
      case Char(c) =>
        s.AppendUrl(c);
      case Backspace =>
        s.PopUrl();
      case Enter =>
        s.SetAppStatus(AppStatusTable.PROCESSING);
        sendRequest := true;
      case _ =>
    }
  }

  /** A key on the request tab headings: Right and Left change the tab. */
  method HandleTabsHeadKey(s: UiState, key: KeyEvent)
    modifies s`activeRequestTab
    ensures Snapshot(s) == TabsHeadView(old(Snapshot(s)), key)
  {
    match key.code {
      case Right =>
        s.ActivateNextReqTab();
      case Left =>
        s.ActivatePreviousReqTab();
      case _ =>
    }
  }

  /** A key in the content of the active request tab. */
  method HandleTabsElemKey(s: UiState, key: KeyEvent) returns (rebuildUrl: bool)
    requires s.Valid() && s.activeElement == RequestTabsElem
    requires OnUrlParams(Snapshot(s)) ==> KvFits(Snapshot(s).queryParams, key)
    requires OnHeaders(Snapshot(s)) ==> KvFits(Snapshot(s).headers, key)
    modifies s`urlQueryParams, s`requestHeaders,
      s.requestHeadersUi`activeRow, s.requestHeadersUi`activeCol,
      s.queryParamsUi`activeRow, s.queryParamsUi`activeCol,
      s.body`activeBodyElement, s.body`bodyContentSelIndex
    ensures Snapshot(s) == TabsElemView(old(Snapshot(s)), key)
    ensures rebuildUrl == ElementStep(old(Snapshot(s)), key).rebuildUrl
  {
    rebuildUrl := false;
    match s.activeRequestTab {
      case UrlParams =>
        rebuildUrl := HandleUrlParamsKey(s, key);
      case Headers =>
        HandleHeadersKey(s, key);
      case Body =>
        HandleBodyKey(s, key);
      case Authorization =>
    }
  }

  /** The active element handles a key. */
  method HandleElementKey(s: UiState, key: KeyEvent) returns (sendRequest: bool, rebuildUrl: bool)
    requires s.Valid()
    requires OnUrlParams(Snapshot(s)) ==> KvFits(Snapshot(s).queryParams, key)
    requires OnHeaders(Snapshot(s)) ==> KvFits(Snapshot(s).headers, key)
    modifies s`url, s`urlQueryParams, s`requestMethod, s`activeRequestTab, s`requestHeaders, s`appStatus,
      s.requestHeadersUi`activeRow, s.requestHeadersUi`activeCol,
      s.queryParamsUi`activeRow, s.queryParamsUi`activeCol,
      s.body`activeBodyElement, s.body`bodyContentSelIndex, s.response`scrollPos
    ensures Snapshot(s) == ElementStep(old(Snapshot(s)), key).view
    ensures sendRequest == ElementStep(old(Snapshot(s)), key).sendRequest
    ensures rebuildUrl == ElementStep(old(Snapshot(s)), key).rebuildUrl
  {
    sendRequest, rebuildUrl := false, false;
    match s.activeElement {
      case URL =>
        sendRequest := HandleUrlKey(s, key);
      case RequestTabsElem =>
        rebuildUrl := HandleTabsElemKey(s, key);
      case RequestTabsHead =>
        HandleTabsHeadKey(s, key);
      case ResponseArea =>
        HandleResponseKey(s, key);
      case SendButton =>
        sendRequest := key.code == Enter;
      case Method =>
        HandleMethodKey(s, key);
    }
  }

  /** Tab and BackTab move the focus once the element has handled the key. */
  method HandleGlobalKey(s: UiState, code: KeyCode)
    modifies s`activeElement
    ensures Snapshot(s) == old(Snapshot(s)).(activeElement := GlobalKey(old(s.activeElement), code))
  {
    match code {
      case Tab =>
        s.ActivateNextElement();
      case BackTab =>
        s.ActivatePreviousElement();
      case _ =>
    }
  }

  /** `process_user_input` on one event: it does exactly what `Step` says
      and keeps the state valid. */
  method ProcessUserInput(s: UiState, ev: Event) returns (exit: bool, sendRequest: bool, rebuildUrl: bool)
    requires s.Valid()
    requires StepFits(Snapshot(s), ev)
    modifies s`url, s`urlQueryParams, s`requestMethod, s`activeRequestTab, s`requestHeaders,
      s`activeElement, s`appStatus,
      s.requestHeadersUi`activeRow, s.requestHeadersUi`activeCol,
      s.queryParamsUi`activeRow, s.queryParamsUi`activeCol,
      s.body`activeBodyElement, s.body`bodyContentSelIndex, s.response`scrollPos
    ensures s.Valid()
    ensures Snapshot(s) == Step(old(Snapshot(s)), ev).view
    ensures exit == Step(old(Snapshot(s)), ev).exit
    ensures sendRequest == Step(old(Snapshot(s)), ev).sendRequest
    ensures rebuildUrl == Step(old(Snapshot(s)), ev).rebuildUrl
  {
    exit, sendRequest, rebuildUrl := false, false, false;
    if !(s.editorMode == EditorMode.Normal || s.inputMode == InputMode.Normal) {
      return;
    }
    if !ev.Key? {
      return;
    }
    var key := ev.key;
    if key.code == Esc {
      exit := true;
      return;
    }
    ghost var v0 := Snapshot(s);
    sendRequest, rebuildUrl := HandleElementKey(s, key);
    assert Snapshot(s) == ElementStep(v0, key).view;
    assert |s.requestHeaders| >= 1 by {
      assert |Step(v0, ev).view.headers.rows| >= 1;
    }
    HandleGlobalKey(s, key.code);
  }
}
