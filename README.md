# dakia state core in Dafny

This project models the state core of dakia, a terminal HTTP client written in Rust. It covers:

- **Single-line text edit state.** A `TextEditState` holds a string and a cursor. It supports insert, delete-left, delete-right and cursor moves.
- **Key/value row editor.** `process_kv_tab_input` maps a key to a list of row operations. It works with the row/column cursor record `KVTabState`, the bounded parameter list `UrlParams` with its temp-text buffer, and the request header list of `UiState`, which is never empty.
- **Parsing and formatting.**
  - `KVData` and `QueryParam` parse `k=v` and format it back.
  - `url_with_params` builds `url?k=v&k=v`.
  - `Response::from_str` splits a response on `\n`.
  - `string_chunks` cuts text into fixed-width pieces.
- **Enumeration tables and navigation.**
  - `RequestTabs` and `UIElement` values, with next/previous navigation.
  - The `BodyContent` and `RawBodyContentType` string tables.
  - `AppStatus::to_str`.
  - Method selection from a digit or a letter.
- **The keystroke step `process_user_input`.** The pure function `UserInput.Step` specifies it over a snapshot `UiView` of the state. The imperative `UserInput.ProcessUserInput` changes a `UiState` object in place and is proved equal to `Step`.

## How the code is modelled

- **Imperative files become classes.** `TextEditState`, `KVTabState`, `UrlParams`, `UiState`, `Body` and `Response` are classes. Their setters name exactly the fields they change in `modifies` clauses (`modifies this`field`). So "changes only its own field" is checked by the frame.
- **Clone values become datatypes.** `KVData`, `QueryParam` and `Param` are stored by value inside vectors, so they are datatypes. Their setters are functions that return the updated value.
- **Types.**
  - Strings are `seq<char>`, one character per position.
  - `u8` and `u16` are the subset types `Ints.U8` and `Ints.U16`.
  - `len() as u16` is the truncating `Ints.AsU16`.
  - `reqwest::Method` is the nine-value datatype `HttpMethods.Method`.
- **Panics become preconditions.** The Rust code panics on a vector index out of range, on `Vec::insert`/`Vec::remove` out of range, and on a debug-build integer overflow. Each of these is a `requires`.
- **The keystroke step.**
  - `event::read` becomes the parameter `ev`.
  - The result of `call_api` is not modelled: the step returns a `sendRequest` flag instead.
  - Rebuilding the URL from its parameters is returned as a `rebuildUrl` flag.
  - The URL's query-parameter list is `UiState.urlQueryParams`, a `seq<KVData>` with vector insert/remove.
- **Key/value operations.** `process_kv_tab_input` invokes callbacks in order; the model returns the operations as a list. The step folds that list over a `KvTable` (rows plus cursor) with `UserInput.ApplyOps`. The step uses `KvTab.ProcessKvTabInputBounded`, which stops Ctrl+Down at the last row (see Findings); it reports the same change flag as the code. `HandleHeadersKey` and `HandleUrlParamsKey` apply the list in a loop that is proved against that fold.

## Model

| member | source | states |
|---|---|---|
| TextEdit.TextEditState.constructor | src/ui/state/text_edit.rs:7-14 | the default state is empty text with every position 0 |
| TextEdit.TextEditState.SetText | src/ui/state/text_edit.rs:18 | replaces the text and changes no other field |
| TextEdit.TextEditState.SetCursorPos | src/ui/state/text_edit.rs:21-23 | sets the cursor and no other field, with no bounds check |
| TextEdit.TextEditState.SetSelStartPos | src/ui/state/text_edit.rs:26-28 | sets the selection start only |
| TextEdit.TextEditState.SetSelEndPos | src/ui/state/text_edit.rs:31-33 | sets the selection end only |
| TextEdit.TextEditState.SetScrollOffset | src/ui/state/text_edit.rs:59-61 | sets the scroll offset only |
| TextEdit.TextEditState.DeleteChar | src/ui/state/text_edit.rs:35-42 | with the cursor inside the text, removes the character before the cursor and moves the cursor back by one; empty text or cursor 0 changes nothing; keeps the cursor within the text length; selection and scroll fields untouched |
| TextEdit.DeleteCharAsWritten | src/ui/state/text_edit.rs:35-42 | the guard as written: the operation panics exactly when the text is non-empty and the cursor is 0 or past the end; otherwise it removes the character at `cursor-1` |
| TextEdit.DeleteCharPanicsAtStart | src/ui/state/text_edit.rs:36-39 | text "a" with cursor 0 reaches the `cursor_pos - 1` underflow |
| TextEdit.DeleteCharAsWrittenAgrees | src/ui/state/text_edit.rs:35-42 | where the as-written code does not panic, it removes the character before the cursor |
| TextEdit.TextEditState.DeleteCharToRight | src/ui/state/text_edit.rs:44-51 | removes the character at the cursor and keeps the cursor; at the end of the text it changes nothing |
| TextEdit.TextEditState.InsertChar | src/ui/state/text_edit.rs:53-56 | the character lands at index `cursor` with the rest shifted, and the cursor advances by exactly one |
| TextEdit.TextEditState.MoveCursor | src/ui/state/text_edit.rs:63-86 | Right advances only below the end; Left goes back only above 0; End goes to the text length; Home goes to 0; Up/Down and `word` change nothing; the cursor within the text length is preserved |
| Seqs.RemoveAtInsertAt | src/ui/state/text_edit.rs:35-56 | removing at the index just inserted at restores the sequence |
| TextEdit.InsertThenDelete | src/ui/state/text_edit.rs:35-56 | typing a character and then Backspace restores the text and the cursor |
| KvTab.ProcessKvTabInput | src/user_input/kv_tab.rs:14-87 | at most two operations; the change flag is set iff a row-changing operation is emitted, and that operation comes last; each kind of operation comes only from its kind of key (column and row moves from Ctrl+arrows or Enter on the remove button, inserts and removes from Enter, edits from characters and Backspace); the direction of each Ctrl+arrow is stated by `KvTab.CtrlArrows` |
| KvTab.CtrlArrows | src/user_input/kv_tab.rs:42-72 | with Control held, Right emits exactly `MoveColumn(col+1)` when `col < 3`, Left `MoveColumn(col-1)` when `col > 0`, Up `MoveRow(row-1)` when `row != 0`, Down `MoveRow(row+1)` when `row < 1000`, and nothing otherwise; none of them reports a change |
| KvTab.ProcessKvTabInputBounded | src/user_input/kv_tab.rs:14-87 | the key rules with Ctrl+Down also stopped at the last row: the same change flag as the code, the same output whenever the key is not Ctrl+Down or a next row exists, and every row move stays below the row count |
| KvTab.BoundedDiffersOnlyPastLastRow | src/user_input/kv_tab.rs:66-72 | the corrected rules differ from the code exactly for Ctrl+Down on the last row below row 1000 |
| KvTab.EnterOnButtons | src/user_input/kv_tab.rs:25-40 | Enter at column 2 emits exactly `Insert(row+1)`; at column 3 it emits `MoveRow(row-1)` (only when `row > 0`) then `Remove(row)`; at columns 0 and 1 it emits nothing |
| KvTab.ColumnStaysInRange | src/user_input/kv_tab.rs:50-64 | a column in 0..3 stays in 0..3 under every column move |
| KvTab.ArrowsNeedCtrl | src/user_input/kv_tab.rs:42-72 | without Ctrl the arrow keys emit nothing |
| KvTab.TextKeysIgnoreModifiers | src/user_input/kv_tab.rs:75-83 | a character key emits `AppendText(c)` and Backspace emits `PopText`, each with a change, whatever the modifiers |
| KvTab.OtherKeysEmitNothing | src/user_input/kv_tab.rs:85 | any other key emits no operation and no change |
| KvTabState.KVTabState.constructor | src/ui/state/kv_tab_state.rs:20-26 | the default is row 0, column 0, scroll 0 |
| KvTabState.KVTabState.SetActiveRow | src/ui/state/kv_tab_state.rs:30-32 | changes only the active row |
| KvTabState.KVTabState.SetActiveCol | src/ui/state/kv_tab_state.rs:35-37 | changes only the active column, with no bounds check |
| KvTabState.KVTabState.SetScrollPos | src/ui/state/kv_tab_state.rs:40-42 | changes only the scroll position |
| KvData.KVData.SetKey | src/ui/state/kv_data.rs:48 | replaces the key and keeps the value |
| KvData.KVData.SetValue | src/ui/state/kv_data.rs:51 | replaces the value and keeps the key |
| KvData.KVData.ToString | src/ui/state/kv_data.rs:35-45 | `key=value` when both are non-empty, `key` when the value is empty, `""` exactly when the key is empty |
| KvData.FromStr | src/ui/state/kv_data.rs:16-33 | empty input gives the default; the key is the text before the first `=`; the value is the text after it only when there is exactly one `=`; neither field contains `=` |
| KvData.FromStrToString | src/ui/state/kv_data.rs:18-45 | a non-empty key with no `=` in either field survives format then parse |
| KvData.ToStringFromStr | src/ui/state/kv_data.rs:18-45 | text without `=`, or with one `=` between non-empty sides, survives parse then format |
| QueryParams.QueryParam.SetName | src/ui/state/query_param.rs:46 | replaces the name and keeps the value |
| QueryParams.QueryParam.SetValue | src/ui/state/query_param.rs:49 | replaces the value and keeps the name |
| QueryParams.QueryParam.ToString | src/ui/state/query_param.rs:33-43 | `name=value`, `name`, or `""` according to which fields are empty |
| QueryParams.FromStr | src/ui/state/query_param.rs:12-31 | empty input gives the default; the name is the text before the first `=`; the value is kept only with exactly one `=` |
| QueryParams.FromStrToString | src/ui/state/query_param.rs:16-43 | a non-empty name with no `=` in either field survives format then parse |
| QueryParams.ToStringFromStr | src/ui/state/query_param.rs:16-43 | well-formed text survives parse then format |
| UrlParamsState.Param.SetName | src/ui/state/url_params.rs:99 | replaces the name and keeps the value |
| UrlParamsState.Param.SetValue | src/ui/state/url_params.rs:101 | replaces the value and keeps the name |
| UrlParamsState.UrlParams.constructor | src/ui/state/url_params.rs:29-37 | the default is one empty parameter, row 0, column 0, not editing, empty temp text |
| UrlParamsState.UrlParams.AddParam | src/ui/state/url_params.rs:50-56 | appends unless the list already holds 1000 parameters, so the list never grows past 1000 |
| UrlParamsState.UrlParams.InsertParam | src/ui/state/url_params.rs:59-65 | no-op at length 1000 or position 1000; otherwise inserts at the position with later rows shifted |
| UrlParamsState.UrlParams.RemoveParam | src/ui/state/url_params.rs:67-69 | removes exactly that row, which may empty the list |
| UrlParamsState.UrlParams.SetActiveParamRow | src/ui/state/url_params.rs:72-74 | changes only the active row |
| UrlParamsState.UrlParams.SetActiveParamCol | src/ui/state/url_params.rs:76-78 | changes only the active column |
| UrlParamsState.UrlParams.SetEditing | src/ui/state/url_params.rs:81 | changes only the editing flag |
| UrlParamsState.UrlParams.SetTempText | src/ui/state/url_params.rs:84 | replaces the temp text |
| UrlParamsState.UrlParams.TempTextAppend | src/ui/state/url_params.rs:85 | pushes one character onto the temp text |
| UrlParamsState.UrlParams.TempTextPop | src/ui/state/url_params.rs:86 | drops the last character of the temp text (none if empty) |
| UrlParamsState.UrlParams.TempTextClear | src/ui/state/url_params.rs:87 | empties the temp text |
| UrlParamsState.UrlParams.UpdateParamNameWithTemp | src/ui/state/url_params.rs:89-91 | row `i` gets the temp text as its name; its value and all other rows are unchanged |
| UrlParamsState.UrlParams.UpdateParamValueWithTemp | src/ui/state/url_params.rs:92-94 | row `i` gets the temp text as its value; its name and all other rows are unchanged |
| Strings.PopCharPush | src/ui/state/url_params.rs:85-86 | pushing a character and popping it restores the string (temp text here, the URL in `UiState`) |
| UrlUtils.UrlWithParams | src/utils/url.rs:5-36 | the loop builds `url + QueryString(params)`, and an empty URL gives `""` |
| UrlUtils.QueryStringIsJoin | src/utils/url.rs:15-35 | the query part is `?` followed by the included `name=value` pairs joined by `&`, in list order |
| UrlUtils.QueryStringShape | src/utils/url.rs:19-27 | the query part is empty iff no parameter is included, and otherwise starts with `?` |
| UrlUtils.SkippedParamIgnored | src/utils/url.rs:19 | a parameter with an empty name or value contributes nothing wherever it stands |
| UrlUtils.IncludedEmpty | src/utils/url.rs:19 | no included parameters iff every parameter has an empty name or value |
| UrlUtils.IncludedFrom | src/utils/url.rs:18-19 | every included parameter comes from the input list |
| UrlUtils.IncludedConcat | src/utils/url.rs:18-28 | the filter distributes over concatenation |
| UrlUtils.JoinedQuerySnoc | src/utils/url.rs:20-27 | the first included pair is preceded by `?` and each later one by `&` |
| UrlUtils.QueryStringParses | src/utils/url.rs:15-35 | when names and values hold no `=` or `&`, splitting the query on `&` and parsing each piece with `QueryParam::from_str` gives back the included parameters |
| UiStates.ElementVal | src/ui/state/mod.rs:73-80 | element values lie in 0..5 |
| UiStates.ElementFromVal | src/ui/state/mod.rs:88-98 | values 0..5 invert `ElementVal`; larger values give `ResponseArea` |
| UiStates.ElementFromValVal | src/ui/state/mod.rs:88-98 | `from_val` of an element's value is that element |
| UiStates.NextElement | src/ui/state/mod.rs:235-238 | moves to the next value and stays at `ResponseArea` |
| UiStates.PreviousElement | src/ui/state/mod.rs:242-250 | moves back by one and stays at `Method` |
| UiStates.NextPreviousElement | src/ui/state/mod.rs:235-250 | next and previous undo each other away from the two ends |
| UiStates.NextElementReachesEnd | src/ui/state/mod.rs:235-238 | five moves forward from any element reach `ResponseArea` |
| UiStates.NextReqTab | src/ui/state/mod.rs:272-275 | moves to the next tab, and from `Body` wraps to `UrlParams` |
| UiStates.PreviousReqTab | src/ui/state/mod.rs:276-284 | moves back one tab, and is a no-op at `UrlParams` |
| UiStates.ReqTabCycle | src/ui/state/mod.rs:272-284 | four forward moves return to the start, and previous undoes next except from `Body` |
| UiStates.MethodFromVal | src/ui/state/mod.rs:176-189 | values above 8 give GET |
| UiStates.MethodFromChar | src/ui/state/mod.rs:190-210 | a character whose upper case is outside `GPUDHOCAT` gives GET |
| UiStates.MethodTablesAgree | src/ui/state/mod.rs:176-210 | value `v` in 0..8 and letter `GPUDHOCAT[v]` select the same method, and distinct values select distinct methods |
| UiStates.MethodFromValOnto | src/ui/state/mod.rs:176-189 | every method is selected by some value in 0..8 |
| UiStates.MethodFromCharIgnoresCase | src/ui/state/mod.rs:190-192 | letter selection ignores ASCII case |
| UiStates.InsertRow | src/ui/state/mod.rs:322-324 | the length grows by one, the row sits at `pos`, and removing it restores the list |
| UiStates.RemoveRowKeepingOne | src/ui/state/mod.rs:325-331 | the result is never empty: it is the list without row `pos`, or one default row if that would be empty |
| UiStates.UiState.constructor | src/ui/state/mod.rs:134-154 | the defaults: empty URL, GET, `UrlParams` tab, counter 0, one default header, `URL` focused, `STARTUP` |
| UiStates.UiState.SetUrl | src/ui/state/mod.rs:160 | replaces the URL |
| UiStates.UiState.AppendUrl | src/ui/state/mod.rs:162 | pushes one character onto the URL |
| UiStates.UiState.AppendUrlString | src/ui/state/mod.rs:163-165 | appends a string to the URL |
| UiStates.UiState.PopUrl | src/ui/state/mod.rs:167 | drops the URL's last character (none if empty) |
| UiStates.UiState.SetMethod | src/ui/state/mod.rs:175 | sets the method |
| UiStates.UiState.SetMethodFromVal | src/ui/state/mod.rs:176-189 | sets the method that `MethodFromVal` selects |
| UiStates.UiState.SetMethodFromChar | src/ui/state/mod.rs:190-210 | sets the method that `MethodFromChar` selects |
| UiStates.UiState.SetEditorMode | src/ui/state/mod.rs:215-218 | sets the editor mode only |
| UiStates.UiState.SetInputMode | src/ui/state/mod.rs:222-225 | sets the input mode only |
| UiStates.UiState.SetActiveElement | src/ui/state/mod.rs:229-231 | sets the focused element only |
| UiStates.UiState.ActivateNextElement | src/ui/state/mod.rs:235-238 | focus moves to `NextElement` |
| UiStates.UiState.ActivatePreviousElement | src/ui/state/mod.rs:242-250 | focus moves to `PreviousElement` |
| UiStates.UiState.IncrementRequestCounter | src/ui/state/mod.rs:256 | the counter grows by one |
| UiStates.UiState.SetResponseStatusCode | src/ui/state/mod.rs:261-263 | sets the status code only |
| UiStates.UiState.SetActiveRequestTab | src/ui/state/mod.rs:268-270 | sets the tab only |
| UiStates.UiState.ActivateNextReqTab | src/ui/state/mod.rs:272-275 | the tab moves to `NextReqTab` |
| UiStates.UiState.ActivatePreviousReqTab | src/ui/state/mod.rs:276-284 | the tab moves to `PreviousReqTab` |
| UiStates.UiState.SetAppStatus | src/ui/state/mod.rs:306-308 | sets the status only |
| UiStates.UiState.SetAppError | src/ui/state/mod.rs:311-313 | stores the error text |
| UiStates.UiState.InsertUrlParam | src/ui/state/mod.rs:315-317 | inserts into the URL's parameter list at `pos` |
| UiStates.UiState.RemoveUrlParam | src/ui/state/mod.rs:318-320 | removes row `pos` of the URL's parameter list |
| UiStates.UiState.InsertHeader | src/ui/state/mod.rs:322-324 | header list becomes `InsertRow`, so it stays non-empty |
| UiStates.UiState.RemoveHeader | src/ui/state/mod.rs:325-331 | header list becomes `RemoveRowKeepingOne` and is never empty |
| RequestTab.GetVal | src/ui/state/request_tabs.rs:25 | the value lies in 0..3 |
| RequestTab.FromVal | src/ui/state/request_tabs.rs:27-35 | values 0..3 invert `GetVal`; larger values give `UrlParams` |
| RequestTab.FromValGetVal | src/ui/state/request_tabs.rs:25-35 | `from_val(get_val(t)) == t` for every tab |
| RequestTab.Iter | src/ui/state/request_tabs.rs:37-41 | four tabs in value order 0, 1, 2, 3 |
| RequestTab.IterListsEveryTabOnce | src/ui/state/request_tabs.rs:37-41 | every tab appears in the iteration, and no tab twice |
| RequestTab.LabelsDistinct | src/ui/state/request_tabs.rs:16-23 | distinct tabs have distinct labels |
| BodyState.BodyContentFromStr | src/ui/state/body.rs:194-210 | a known name parses to the content whose name it is; anything else gives `NONE` |
| BodyState.BodyContentRoundTrip | src/ui/state/body.rs:181-210 | `from_str(c.to_string()) == c` for all seven variants |
| BodyState.BodyContentIter | src/ui/state/body.rs:212-225 | seven distinct variants |
| BodyState.BodyContentAsStringVec | src/ui/state/body.rs:227-235 | the loop yields the names of `iter` in order: "None", "Form Data", "Form URL-encoded", "Json", "Text", "Html", "Xml" |
| BodyState.RawBodyContentTypeFromStr | src/ui/state/body.rs:248-260 | "Text", "JSON", "HTML", "XML" parse to their variants, matched case-sensitively; anything else gives `Text` |
| BodyState.RawBodyContentTypeRoundTrip | src/ui/state/body.rs:239-260 | every raw type survives format then parse |
| BodyState.RawBodyContentTypeIter | src/ui/state/body.rs:262-271 | four distinct variants |
| BodyState.RawBodyContentTypeAsStringVec | src/ui/state/body.rs:273-281 | the loop yields `["Text", "JSON", "HTML", "XML"]` |
| BodyState.Body.constructor | src/ui/state/body.rs:78-111 | the defaults `ContentType(false)`, `NONE`, `Text`, both option lists, empty data, popup length 5 |
| BodyState.Body.SetActiveBodyElement | src/ui/state/body.rs:118-121 | changes only the active element |
| BodyState.Body.SetBodyContent | src/ui/state/body.rs:123-126 | changes only the content type |
| BodyState.Body.SetBodyContentSelIndex | src/ui/state/body.rs:128-131 | changes only the selection index |
| BodyState.Body.SetBodyContentOptions | src/ui/state/body.rs:133-136 | changes only the option list |
| BodyState.Body.SetRawBodyContent | src/ui/state/body.rs:138-141 | changes only the raw type |
| BodyState.Body.SetRawBodyContentOptions | src/ui/state/body.rs:143-146 | changes only the raw option list |
| BodyState.Body.SetRawBodyContentSelIndex | src/ui/state/body.rs:148-151 | changes only the raw selection index |
| BodyState.Body.SetCursorPosition | src/ui/state/body.rs:153-156 | changes only the cursor position |
| BodyState.Body.SetDispContentLen | src/ui/state/body.rs:158-161 | changes only the popup length |
| BodyState.Body.SetBodyContentScrollOffset | src/ui/state/body.rs:165-167 | changes only the scroll offset |
| ResponseState.Response.constructor | src/ui/state/response.rs:1-10 | the default has counter 0, no lines, not initialised, scroll 0 |
| ResponseState.Response.SetCacheReqCounter | src/ui/state/response.rs:14-16 | changes only the cached counter |
| ResponseState.Response.SetResponse | src/ui/state/response.rs:19-22 | stores the lines and marks the response initialised |
| ResponseState.Response.FromStr | src/ui/state/response.rs:23-26 | stores the `\n`-separated pieces: their count is the number of newlines plus one, none contains `\n`, joining them with `\n` gives the text back, and the response is marked initialised |
| ResponseState.Response.SetScrollPos | src/ui/state/response.rs:31 | changes only the scroll position |
| Strings.JoinSplit | src/ui/state/response.rs:24 | joining the pieces of a split gives the original text |
| Strings.SplitJoin | src/ui/state/response.rs:24 | splitting a join of newline-free lines gives the lines back |
| AppStatusTable.ToStr | src/ui/state/app_status.rs:15-22 | `STARTUP` and only `STARTUP` shows as the empty string |
| AppStatusTable.ToStrInjective | src/ui/state/app_status.rs:15-22 | distinct statuses show as distinct strings |
| UiText.StringChunks | src/ui/mod.rs:251-257 | the chunks concatenate to the input, each is non-empty and at most `w` long, and all but the last are exactly `w` long |
| UiText.ChunkCount | src/ui/mod.rs:251-257 | there are `ceil(len / w)` chunks, so empty text gives none |
| UserInput.EditRows | src/user_input/mod.rs:97-115 | text edits change the key at column 0 and the value at column 1 of the active row only; other columns and missing rows change nothing |
| UserInput.ApplyOp | src/user_input/mod.rs:60-141 | cursor operations move only the cursor; row operations change only the rows; an insert adds a default row at its position; a non-empty list stays non-empty |
| UserInput.KvFitsExactly | src/user_input/kv_tab.rs:25-40 | the key can be applied without a panic iff an insert position is within the list and a removed row exists |
| UserInput.KvCursorMoves | src/user_input/kv_tab.rs:42-72 | after one key the column stays in 0..3; it goes up by one iff Ctrl+Right with `col < 3`, down by one iff Ctrl+Left with `col > 0`, and changes with no other key; the row goes up by one iff it is not 0 and the key is Ctrl+Up or Enter on the remove button, down by one iff Ctrl+Down with a next row (below row 1000), and moves by at most one |
| UserInput.CtrlDownLeavesTable | src/user_input/kv_tab.rs:66-72 | under the rules as written, from one default row, Ctrl+Down reaches row 1 and three Ctrl+Right reach column 3; there Enter, and Enter at column 2, cannot be applied (a remove or an insert past the end of the list) |
| UserInput.CursorStaysOnRows | src/user_input/kv_tab.rs:14-87 | with the corrected Ctrl+Down bound, a cursor on an existing row and column stays on one after any key, and every key can be applied |
| UserInput.KvTextKeys | src/user_input/mod.rs:97-115 | a character or Backspace edits the cell under the cursor and leaves the cursor |
| UserInput.OpsKeepRows | src/user_input/mod.rs:80-96 | a non-empty row list stays non-empty through any operation list |
| UserInput.BodyKey | src/user_input/mod.rs:255-289 | the select index stays within the options, and changes only with the select open and Up/Down pressed |
| UserInput.BodyElementCycle | src/user_input/mod.rs:218-317 | with Ctrl: TextArea Up gives `ContentType(false)`; ContentType Right/Left give `RawContentType(false)`/TextArea; RawContentType Right/Left give TextArea/`ContentType(false)` |
| UserInput.EnterTogglesSelect | src/user_input/mod.rs:255-262 | Enter on the content type toggles the open flag, and twice restores the state |
| UserInput.ScrollBy | src/user_input/mod.rs:341-347 | the scroll step is 1 or 4 |
| UserInput.ScrollUp | src/user_input/mod.rs:350-359 | the new position is `max(0, pos - k)` |
| UserInput.ScrollDown | src/user_input/mod.rs:361-367 | moves to `pos + k` only when that is below the line count, otherwise stays |
| UserInput.ScrollStaysOnLines | src/user_input/mod.rs:349-367 | a position on a line stays on a line, and scrolling up undoes a successful scroll down |
| UserInput.MethodKey | src/user_input/mod.rs:383-401 | digit `d` in 1..9 selects `MethodFromVal(d-1)`; '0' keeps the method; a non-digit selects `MethodFromChar` |
| UserInput.ElementStep | src/user_input/mod.rs:29-402 | element handling never exits and never moves focus; it requests the API call iff Enter is pressed on the URL or the Send button; it asks for a URL rebuild iff a URL-params key reports a change |
| UserInput.GlobalKey | src/user_input/mod.rs:404-413 | Tab moves focus to the next element, BackTab to the previous, other keys keep it |
| UserInput.Step | src/user_input/mod.rs:18-424 | exit iff the input gate is open and Esc is pressed; with the gate closed, a non-key event or Esc nothing changes; the header list stays non-empty |
| UserInput.TabOnlyMovesFocus | src/user_input/mod.rs:404-413 | Tab/BackTab change only the focused element |
| UserInput.ResponseScrolling | src/user_input/mod.rs:339-371 | Up/Down on the response area set the scroll position to `ScrollUp`/`ScrollDown` and change nothing else |
| UserInput.MethodSelection | src/user_input/mod.rs:383-401 | a character on the method element selects `MethodKey` |
| UserInput.BodySelectionInRange | src/user_input/mod.rs:218-319 | a select index within the options stays within them after any key |
| UserInput.HandleHeadersKey | src/user_input/mod.rs:143-216 | the loop over the emitted operations leaves the header table equal to `KvStep` |
| UserInput.HandleUrlParamsKey | src/user_input/mod.rs:57-141 | the loop leaves the URL-params table equal to `KvStep`, and returns the change flag that triggers the URL rebuild |
| UserInput.HandleBodyKey | src/user_input/mod.rs:218-319 | the body element and selection become `BodyKey` of the old ones |
| UserInput.HandleResponseKey | src/user_input/mod.rs:339-371 | the scroll position becomes `ScrollUp`/`ScrollDown` of the old one |
| UserInput.HandleMethodKey | src/user_input/mod.rs:383-401 | the method becomes `MethodKey` of the old one |
| UserInput.HandleUrlKey | src/user_input/mod.rs:30-55 | characters append to the URL, Backspace pops, Enter sets `PROCESSING` and requests the call |
| UserInput.HandleTabsHeadKey | src/user_input/mod.rs:325-337 | Right/Left move to the next/previous request tab |
| UserInput.HandleTabsElemKey | src/user_input/mod.rs:57-323 | the active tab's handler runs and the state matches the tab's view function |
| UserInput.HandleElementKey | src/user_input/mod.rs:29-402 | the state and flags match `ElementStep` |
| UserInput.HandleGlobalKey | src/user_input/mod.rs:404-413 | focus becomes `GlobalKey` of the old focus |
| UserInput.ProcessUserInput | src/user_input/mod.rs:18-424 | the new state's snapshot and the exit, send and rebuild flags are exactly those of `Step`; the two cursor records stay distinct and the header list non-empty |

## Left out

- **I/O.** `event::read` is the event parameter of `ProcessUserInput`. `call_api` (src/api/mod.rs) is a blocking HTTP request and is not modelled: the step only reports `sendRequest`. main.rs (terminal setup, logging, draw loop) is not part of this model.
- **The URL record.** src/ui/state/url.rs and the methods of `Url` that the input handler calls (`update`, `to_string`, `insert_param`, `remove_param`, `query_params`) are not part of this model. The URL's parameter list is modelled as a vector of `KVData`.
  - Typing in the URL bar does not re-parse the URL into parameters.
  - A parameter edit reports `rebuildUrl` instead of rewriting the URL text.
- **query_params_ui.rs.** It holds two stored fields with no behaviour, is not declared as a module of the state, and duplicates `KVTabState`.
- **Rendering.** src/ui/widgets, src/ui/render and the drawing functions of src/ui/mod.rs are left out: they only lay out terminal widgets. Only `string_chunks` is modelled.
- **Floating point.** `scrollbar_pos` in src/ui/calc.rs divides `f32` values and is left out.
- **The multi-line body editor.** `text_data` is shown only through render-side calls into a type that is not part of this model. The body text is a plain string field.
- **Encoding.** Strings are sequences of characters, so UTF-8 byte offsets in `String::insert`/`replace_range` are not modelled.
- **Getters and aliases.**
  - The getters are field reads.
  - `from_string` is the same function as `from_str` in each table, so there is no separate member.
  - `KVData::new`, `QueryParam::new` and `default_const` are the datatype constructors.
- **Value setters.** `KVData`, `QueryParam` and `Param` setters return the updated value instead of changing a shared object. The source stores these records by value, so nothing aliases them.
- **Ordering of callbacks.** The operations of `process_kv_tab_input` are applied after it returns, in order, not interleaved with it. The function has no state of its own, so the result is the same.
- UserInput.ScrollDown: `pos + k` is unbounded. In the source, the `u16` addition panics in a debug build when `pos` is within 4 of 65535, which the model does not reproduce.
- UserInput.BodyKey: the `u8` increment of the select index is not bounded at 255. The option list has 7 entries, so the index the code reaches stays below it.
- UserInput.ElementStep: Enter on the Send button calls `call_api(...).unwrap()`. `call_api` returns `Ok(())` on every path and reports request errors in the UI state instead (src/api/mod.rs:5-23), so the unwrap cannot panic. Its effect on the response (status code, response text) is not modelled; the step only reports `sendRequest`.
- UiStates.UiState.IncrementRequestCounter: requires the counter to be below 255, because the `u8` `+= 1` panics there in a debug build. The model does not wrap around as a release build would.
- UserInput.KvFitsExactly: the keystroke step uses the corrected Ctrl+Down bound (see Findings); the code's bound at row 1000 is kept in `KvTab.ProcessKvTabInput` and shown by `UserInput.CtrlDownLeavesTable`. An insert below row 65535 is required so that `row + 1` fits in `u16`.
- **Revisions.** The files come from different revisions. For example, src/ui/mod.rs treats the response as an `Option` where src/ui/state/mod.rs returns it directly. Each file is modelled on its own terms.

## Findings

| source | as written | input that shows it | evidently intended | confidence | as-written member | corrected member |
|---|---|---|---|---|---|---|
| src/ui/state/text_edit.rs:35-42 | `delete_char` checks `text.len() > 0` and then computes `pos-1` on the `usize` cursor (line 39) | text "a" with cursor 0 (Backspace at the start of a non-empty field): the `usize` subtraction `pos-1` underflows and panics | delete-left at the start of the text changes nothing | not executed | TextEdit.DeleteCharAsWritten | TextEdit.TextEditState.DeleteChar |
| src/user_input/kv_tab.rs:66-72 | Ctrl+Down moves the cursor down whenever `row < 1000`, not only when a next row exists | headers holding one default row: Ctrl+Down (row 1), Ctrl+Right three times (column 3), Enter: the remove at row 1 of a one-row list panics; at column 2, Enter inserts at 2 and panics | Ctrl+Down stops at the last row | not executed | UserInput.CtrlDownLeavesTable | KvTab.ProcessKvTabInputBounded |
