/** The URL parameter table: at most 1000 rows, the active cell, an editing
    flag, and the text typed into the cell being edited. */
module UrlParamsState {
  import opened Ints
  import opened Strings
  import opened Seqs

  datatype Param = Param(name: seq<char>, value: seq<char>)
  {
    /** `set_name`: the parameter with its name replaced. */
    function SetName(n: seq<char>): (r: Param)
      ensures r.name == n && r.value == value
    {
      this.(name := n)
    }

    /** `set_value`: the parameter with its value replaced. */
    function SetValue(v: seq<char>): (r: Param)
      ensures r.value == v && r.name == name
    {
      this.(value := v)
    }
  }

  /** `Param::default()`. */
  const DefaultParam := Param([], [])

  /** The row limit of `add_param` and `insert_param`. */
  const MaxParams: nat := 1000

  class UrlParams {
    var params: seq<Param>
    var activeParamRow: U16
    var activeParamCol: U8
    var editing: bool
    var tempText: seq<char>

    /** The table never grows past the row limit. */
    ghost predicate Valid()
      reads this
    {
      |params| <= MaxParams
    }

    /** `UrlParams::default()`: one empty row, its name cell active, not editing. */
    constructor ()
      ensures Valid()
      ensures params == [DefaultParam]
      ensures activeParamRow == 0 && activeParamCol == 0
      ensures !editing && tempText == []
    {
      params := [DefaultParam];
      activeParamRow, activeParamCol := 0, 0;
      editing, tempText := false, [];
    }

    /** Appends `param` unless the table holds exactly 1000 rows. */
    method AddParam(param: Param)
      modifies this`params
      ensures old(Valid()) ==> Valid()
      ensures |old(params)| == MaxParams ==> params == old(params)
      ensures |old(params)| != MaxParams ==> params == old(params) + [param]
    {
      if |params| == MaxParams {
        return;
      }
      params := params + [param];
    }

    /** Inserts `param` at `pos`, shifting the later rows down, unless the
        table holds 1000 rows or `pos` is 1000. `Vec::insert` panics past
        the end of the table. */
    method InsertParam(pos: U16, param: Param)
      requires |params| != MaxParams && pos != MaxParams ==> pos <= |params|
      modifies this`params
      ensures old(Valid()) ==> Valid()
      ensures |old(params)| == MaxParams || pos == MaxParams ==> params == old(params)
      ensures |old(params)| != MaxParams && pos != MaxParams ==>
        params == InsertAt(old(params), pos, param)
    {
      if |params| == MaxParams || pos == MaxParams {
        return;
      }
      params := InsertAt(params, pos, param);
    }

    /** Removes the row at `pos`; this may leave the table empty.
        `Vec::remove` panics past the end of the table. */
    method RemoveParam(pos: U16)
      requires pos < |params|
      modifies this`params
      ensures old(Valid()) ==> Valid()
      ensures params == RemoveAt(old(params), pos)
    {
      params := RemoveAt(params, pos);
    }

    method SetActiveParamRow(row: U16)
      modifies this`activeParamRow
      ensures activeParamRow == row
    {
      activeParamRow := row;
    }

    method SetActiveParamCol(col: U8)
      modifies this`activeParamCol
      ensures activeParamCol == col
    {
      activeParamCol := col;
    }

    method SetEditing(e: bool)
      modifies this`editing
      ensures editing == e
    {
      editing := e;
    }

    method SetTempText(t: seq<char>)
      modifies this`tempText
      ensures tempText == t
    {
      tempText := t;
    }

    method TempTextAppend(c: char)
      modifies this`tempText
      ensures tempText == old(tempText) + [c]
    {
      tempText := tempText + [c];
    }

    method TempTextPop()
      modifies this`tempText
      ensures tempText == PopChar(old(tempText))
    {
      tempText := PopChar(tempText);
    }

    method TempTextClear()
      modifies this`tempText
      ensures tempText == []
    {
      tempText := [];
    }

    /** Copies the typed text into the name of row `i`; every other row, and
        the value of row `i`, stay as they were. */
    method UpdateParamNameWithTemp(i: U16)
      requires i < |params|
      modifies this`params
      ensures |params| == |old(params)|
      ensures params[i] == Param(tempText, old(params)[i].value)
      ensures forall j :: 0 <= j < |params| && j != i ==> params[j] == old(params)[j]
    {
      params := params[i := params[i].SetName(tempText)];
    }

    /** Copies the typed text into the value of row `i`; every other row, and
        the name of row `i`, stay as they were. */
    method UpdateParamValueWithTemp(i: U16)
      requires i < |params|
      modifies this`params
      ensures |params| == |old(params)|
      ensures params[i] == Param(old(params)[i].name, tempText)
      ensures forall j :: 0 <= j < |params| && j != i ==> params[j] == old(params)[j]
    {
      params := params[i := params[i].SetValue(tempText)];
    }
  }
}
