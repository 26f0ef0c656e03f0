/** The application state: the request being edited (URL, method, headers,
    query parameters, body), the response, and which element of the screen
    is active. */
module UiStates {
  import opened Ints
  import opened Options
  import opened Strings
  import opened Seqs
  import HttpMethods
  import RequestTab
  import KvData
  import AppStatusTable
  import BodyState
  import opened KvTabState
  import opened ResponseState

  /** The elements of the screen, in Tab order. */
  datatype UIElement = Method | URL | SendButton | RequestTabsHead | RequestTabsElem | ResponseArea

  /** `UIElement::default()`. */
  const DefaultUIElement := URL

  /** `e as u8`: the discriminant. */
  function ElementVal(e: UIElement): (r: U8)
    ensures r <= 5
  {
    match e
    case Method => 0
    case URL => 1
    case SendButton => 2
    case RequestTabsHead => 3
    case RequestTabsElem => 4
    case ResponseArea => 5
  }

  /** The element with value `v`; any value past 5 gives the last element. */
  function ElementFromVal(v: U8): (r: UIElement)
    ensures v <= 5 ==> ElementVal(r) == v
    ensures v > 5 ==> r == ResponseArea
  {
    match v
    case 0 => Method
    case 1 => URL
    case 2 => SendButton
    case 3 => RequestTabsHead
    case 4 => RequestTabsElem
    case _ => ResponseArea
  }

  /** The element after `e` in Tab order; the last one stays put. */
  function NextElement(e: UIElement): (r: UIElement)
    ensures e != ResponseArea ==> ElementVal(r) == ElementVal(e) + 1
    ensures e == ResponseArea ==> r == ResponseArea
  {
    ElementFromVal(ElementVal(e) + 1)
  }

  /** The element before `e` in Tab order; the first one stays put. */
  function PreviousElement(e: UIElement): (r: UIElement)
    ensures e != Method ==> ElementVal(r) + 1 == ElementVal(e)
    ensures e == Method ==> r == Method
  {
    var n := ElementVal(e);
    if n == 0 then e else ElementFromVal(n - 1)
  }

  /** Every element is recovered from its value. */
  lemma ElementFromValVal(e: UIElement)
    ensures ElementFromVal(ElementVal(e)) == e
  {
  }

  /** Forward and backward movement undo each other away from the ends. */
  lemma NextPreviousElement(e: UIElement)
    ensures e != ResponseArea ==> PreviousElement(NextElement(e)) == e
    ensures e != Method ==> NextElement(PreviousElement(e)) == e
  {
    ElementFromValVal(e);
  }

  /** Five forward steps reach the last element from anywhere. */
  lemma NextElementReachesEnd(e: UIElement)
    ensures NextElement(NextElement(NextElement(NextElement(NextElement(e))))) == ResponseArea
  {
  }

  /** The request tab after `t`; the last tab wraps round to the first,
      because value 4 is out of range. */
  function NextReqTab(t: RequestTab.RequestTabs): (r: RequestTab.RequestTabs)
    ensures t != RequestTab.Body ==> RequestTab.GetVal(r) == RequestTab.GetVal(t) + 1
    ensures t == RequestTab.Body ==> r == RequestTab.UrlParams
  {
    RequestTab.FromVal(RequestTab.GetVal(t) + 1)
  }

  /** The request tab before `t`; the first tab stays put. */
  function PreviousReqTab(t: RequestTab.RequestTabs): (r: RequestTab.RequestTabs)
    ensures t != RequestTab.UrlParams ==> RequestTab.GetVal(r) + 1 == RequestTab.GetVal(t)
    ensures t == RequestTab.UrlParams ==> r == RequestTab.UrlParams
  {
    var n := RequestTab.GetVal(t);
    if n == 0 then t else RequestTab.FromVal(n - 1)
  }

  /** Moving forward through the tabs is a cycle of length four, and moving
      back undoes a forward move except across the wrap. */
  lemma ReqTabCycle(t: RequestTab.RequestTabs)
    ensures NextReqTab(NextReqTab(NextReqTab(NextReqTab(t)))) == t
    ensures t != RequestTab.Body ==> PreviousReqTab(NextReqTab(t)) == t
  {
    RequestTab.FromValGetVal(t);
  }

  /** The editor mode; only `Normal` exists in behaviour. */
  datatype EditorMode = Normal | VIM

  datatype InputMode = Normal | INSERT | VISUAL

  /** The letters that pick a method, in the order of `MethodFromVal`:
      Get, Post, pUt, Delete, Head, Options, Connect, pAtch, Trace. */
  const MethodAllowedChars: seq<char> := "GPUDHOCAT"

  /** The method with number `v` (0 GET … 8 TRACE); any other value gives GET. */
  function MethodFromVal(v: U8): (r: HttpMethods.Method)
    ensures v > 8 ==> r == HttpMethods.DefaultMethod
  {
    match v
    case 0 => HttpMethods.GET
    case 1 => HttpMethods.POST
    case 2 => HttpMethods.PUT
    case 3 => HttpMethods.DELETE
    case 4 => HttpMethods.HEAD
    case 5 => HttpMethods.OPTIONS
    case 6 => HttpMethods.CONNECT
    case 7 => HttpMethods.PATCH
    case 8 => HttpMethods.TRACE
    case _ => HttpMethods.GET
  }

  /** The method picked by letter `c`, either case; any other character
      gives GET. */
  function MethodFromChar(c: char): (r: HttpMethods.Method)
    ensures ToAsciiUpper(c) !in MethodAllowedChars ==> r == HttpMethods.DefaultMethod
  {
    var upper := ToAsciiUpper(c);
    if upper in MethodAllowedChars then
      match upper
      case 'G' => HttpMethods.GET
      case 'P' => HttpMethods.POST
      case 'U' => HttpMethods.PUT
      case 'D' => HttpMethods.DELETE
      case 'H' => HttpMethods.HEAD
      case 'O' => HttpMethods.OPTIONS
      case 'C' => HttpMethods.CONNECT
      case 'A' => HttpMethods.PATCH
      case 'T' => HttpMethods.TRACE
      case _ => HttpMethods.GET
    else
      HttpMethods.GET
  }

  /** The number and the letter of a method pick the same method, and the
      nine numbers pick nine different methods. */
  lemma MethodTablesAgree(v: U8)
    requires v <= 8
    ensures MethodFromVal(v) == MethodFromChar(MethodAllowedChars[v])
    ensures forall w: U8 :: w <= 8 && w != v ==> MethodFromVal(w) != MethodFromVal(v)
  {
  }

  /** Every method has a number. */
  lemma MethodFromValOnto(m: HttpMethods.Method)
    ensures exists v: U8 :: v <= 8 && MethodFromVal(v) == m
  {
    match m
    case GET => assert MethodFromVal(0) == m;
    case POST => assert MethodFromVal(1) == m;
    case PUT => assert MethodFromVal(2) == m;
    case DELETE => assert MethodFromVal(3) == m;
    case HEAD => assert MethodFromVal(4) == m;
    case OPTIONS => assert MethodFromVal(5) == m;
    case CONNECT => assert MethodFromVal(6) == m;
    case PATCH => assert MethodFromVal(7) == m;
    case TRACE => assert MethodFromVal(8) == m;
  }

  /** Letter selection ignores case. */
  lemma MethodFromCharIgnoresCase(c: char)
    ensures MethodFromChar(c) == MethodFromChar(ToAsciiUpper(c))
  {
  }

  /** A row list after `Vec::insert` of `kv` at `pos` (which panics past the end). */
  function InsertRow(rows: seq<KvData.KVData>, pos: nat, kv: KvData.KVData): (r: seq<KvData.KVData>)
    requires pos <= |rows|
    ensures |r| == |rows| + 1 && r[pos] == kv
    ensures RemoveAt(r, pos) == rows
  {
    RemoveAtInsertAt(rows, pos, kv);
    InsertAt(rows, pos, kv)
  }

  /** A row list after `remove_header(pos)`: the row at `pos` is gone, and
      an emptied list gets one default row back. */
  function RemoveRowKeepingOne(rows: seq<KvData.KVData>, pos: nat): (r: seq<KvData.KVData>)
    requires pos < |rows|
    ensures |r| >= 1
    ensures |rows| > 1 ==> r == RemoveAt(rows, pos)
    ensures |rows| == 1 ==> r == [KvData.Default]
  {
    var rest := RemoveAt(rows, pos);
    if |rest| == 0 then [KvData.Default] else rest
  }

  class UiState {
    var url: seq<char>
    /** The query parameters of the deconstructed URL. */
    var urlQueryParams: seq<KvData.KVData>
    const body: BodyState.Body
    var editorMode: EditorMode
    var requestMethod: HttpMethods.Method
    var activeRequestTab: RequestTab.RequestTabs
    var requestCounter: U8
    var requestHeaders: seq<KvData.KVData>
    const requestHeadersUi: KVTabState
    const response: Response
    var responseStatusCode: Option<U16>
    var activeElement: UIElement
    var inputMode: InputMode
    const queryParamsUi: KVTabState
    var appStatus: AppStatusTable.AppStatus
    var appError: Option<seq<char>>

    /** There is always a header row, and the two key-value tabs have
        cursors of their own. */
    ghost predicate Valid()
      reads this
    {
      |requestHeaders| >= 1 && requestHeadersUi != queryParamsUi
    }

    /** `UiState::default()`. */
    constructor ()
      ensures Valid()
      ensures fresh(body) && fresh(requestHeadersUi) && fresh(response) && fresh(queryParamsUi)
      ensures url == [] && urlQueryParams == [] && requestHeaders == [KvData.Default]
      ensures editorMode == EditorMode.Normal && inputMode == InputMode.Normal
      ensures requestMethod == HttpMethods.DefaultMethod && activeRequestTab == RequestTab.Default
      ensures requestCounter == 0 && responseStatusCode == None && appError == None
      ensures activeElement == DefaultUIElement && appStatus == AppStatusTable.Default
      ensures requestHeadersUi.activeRow == 0 && requestHeadersUi.activeCol == 0
      ensures queryParamsUi.activeRow == 0 && queryParamsUi.activeCol == 0
      ensures !response.initialized && response.scrollPos == 0
      ensures body.activeBodyElement == BodyState.DefaultBodyUIElement
    {
      var b := new BodyState.Body();
      var headersUi := new KVTabState();
      var resp := new Response();
      var paramsUi := new KVTabState();
      url := [];
      urlQueryParams := [];
      body := b;
      editorMode := EditorMode.Normal;
      requestMethod := HttpMethods.DefaultMethod;
      activeRequestTab := RequestTab.Default;
      requestCounter := 0;
      requestHeaders := [KvData.Default];
      requestHeadersUi := headersUi;
      response := resp;
      responseStatusCode := None;
      activeElement := DefaultUIElement;
      inputMode := InputMode.Normal;
      queryParamsUi := paramsUi;
      appStatus := AppStatusTable.Default;
      appError := None;
    }

    method SetUrl(u: seq<char>)
      modifies this`url
      ensures url == u
    {
      url := u;
    }

    method AppendUrl(c: char)
      modifies this`url
      ensures url == old(url) + [c]
    {
      url := url + [c];
    }

    method AppendUrlString(s: seq<char>)
      modifies this`url
      ensures url == old(url) + s
    {
      url := url + s;
    }

    /** Drops the last character of the URL, if any. */
    method PopUrl()
      modifies this`url
      ensures url == PopChar(old(url))
    {
      url := PopChar(url);
    }

    method SetMethod(m: HttpMethods.Method)
      modifies this`requestMethod
      ensures requestMethod == m
    {
      requestMethod := m;
    }

    method SetMethodFromVal(v: U8)
      modifies this`requestMethod
      ensures requestMethod == MethodFromVal(v)
    {
      SetMethod(MethodFromVal(v));
    }

    method SetMethodFromChar(c: char)
      modifies this`requestMethod
      ensures requestMethod == MethodFromChar(c)
    {
      SetMethod(MethodFromChar(c));
    }

    method SetEditorMode(m: EditorMode)
      modifies this`editorMode
      ensures editorMode == m
    {
      editorMode := m;
    }

    method SetInputMode(m: InputMode)
      modifies this`inputMode
      ensures inputMode == m
    {
      inputMode := m;
    }

    method SetActiveElement(e: UIElement)
      modifies this`activeElement
      ensures activeElement == e
    {
      activeElement := e;
    }

    method ActivateNextElement()
      modifies this`activeElement
      ensures activeElement == NextElement(old(activeElement))
    {
      var n := ElementVal(activeElement);
      SetActiveElement(ElementFromVal(n + 1));
    }

    method ActivatePreviousElement()
      modifies this`activeElement
      ensures activeElement == PreviousElement(old(activeElement))
    {
      var n := ElementVal(activeElement);
      if n == 0 {
        return;
      }
      SetActiveElement(ElementFromVal(n - 1));
    }

    /** Counts one more request; a `u8` that is full overflows. */
    method IncrementRequestCounter()
      requires requestCounter < 0xFF
      modifies this`requestCounter
      ensures requestCounter == old(requestCounter) + 1
    {
      requestCounter := requestCounter + 1;
    }

    method SetResponseStatusCode(status: Option<U16>)
      modifies this`responseStatusCode
      ensures responseStatusCode == status
    {
      responseStatusCode := status;
    }

    method SetActiveRequestTab(t: RequestTab.RequestTabs)
      modifies this`activeRequestTab
      ensures activeRequestTab == t
    {
      activeRequestTab := t;
    }

    method ActivateNextReqTab()
      modifies this`activeRequestTab
      ensures activeRequestTab == NextReqTab(old(activeRequestTab))
    {
      var n := RequestTab.GetVal(activeRequestTab);
      SetActiveRequestTab(RequestTab.FromVal(n + 1));
    }

    method ActivatePreviousReqTab()
      modifies this`activeRequestTab
      ensures activeRequestTab == PreviousReqTab(old(activeRequestTab))
    {
      var n := RequestTab.GetVal(activeRequestTab);
      if n == 0 {
        return;
      }
      SetActiveRequestTab(RequestTab.FromVal(n - 1));
    }

    method SetAppStatus(status: AppStatusTable.AppStatus)
      modifies this`appStatus
      ensures appStatus == status
    {
      appStatus := status;
    }

    method SetAppError(error: seq<char>)
      modifies this`appError
      ensures appError == Some(error)
    {
      appError := Some(error);
    }

    /** Inserts a query parameter row at `pos` of the URL's parameter list. */
    method InsertUrlParam(pos: U16, param: KvData.KVData)
      requires pos <= |urlQueryParams|
      modifies this`urlQueryParams
      ensures urlQueryParams == InsertAt(old(urlQueryParams), pos, param)
    {
      urlQueryParams := InsertAt(urlQueryParams, pos, param);
    }

    /** Removes the query parameter row at `pos`. */
    method RemoveUrlParam(pos: U16)
      requires pos < |urlQueryParams|
      modifies this`urlQueryParams
      ensures urlQueryParams == RemoveAt(old(urlQueryParams), pos)
    {
      urlQueryParams := RemoveAt(urlQueryParams, pos);
    }

    /** Inserts header row `kv` at `pos`: one row more, `kv` at `pos`. */
    method InsertHeader(pos: U16, kv: KvData.KVData)
      requires pos <= |requestHeaders|
      modifies this`requestHeaders
      ensures old(Valid()) ==> Valid()
      ensures requestHeaders == InsertRow(old(requestHeaders), pos, kv)
    {
      requestHeaders := InsertAt(requestHeaders, pos, kv);
    }

    /** Removes header row `pos`, re-adding a default row when none is left,
        so the header list is never empty. */
    method RemoveHeader(pos: U16)
      requires pos < |requestHeaders|
      modifies this`requestHeaders
      ensures |requestHeaders| >= 1
      ensures old(Valid()) ==> Valid()
      ensures requestHeaders == RemoveRowKeepingOne(old(requestHeaders), pos)
    {
      requestHeaders := RemoveAt(requestHeaders, pos);
      if |requestHeaders| == 0 {
        requestHeaders := requestHeaders + [KvData.Default];
      }
    }
  }
}
