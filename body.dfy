/** The state of the request body tab: which of its widgets is active, the
    chosen content type and raw content type with their select lists, and
    the body data. */
module BodyState {
  import opened Ints
  import opened KvData

  /** The widgets of the body tab; the flag says whether a select is open. */
  datatype BodyUIElement = ContentType(isOpen: bool) | RawContentType(isOpen: bool) | TextArea

  datatype BodyContent = NONE | FormData | FormURLEncoded | Text | Json | Html | Xml
  {
    /** The name shown in the content type select. */
    function ToString(): seq<char>
    {
      match this
      case NONE => "None"
      case FormData => "Form Data"
      case FormURLEncoded => "Form URL-encoded"
      case Text => "Text"
      case Json => "Json"
      case Html => "Html"
      case Xml => "Xml"
    }
  }

  /** The raw content types, kept for syntax highlighting. */
  datatype RawBodyContentType = Text | Json | Html | Xml
  {
    /** The name shown in the raw content type select. */
    function ToString(): seq<char>
    {
      match this
      case Text => "Text"
      case Json => "JSON"
      case Html => "HTML"
      case Xml => "XML"
    }
  }

  /** Where the cursor is in the body; a key-value cursor is held by value
      as the three numbers of a `KVTabState`. */
  datatype BodyCursorPosition =
    | NONE
    | TabState(activeRow: U16, activeCol: U8, scrollPos: U16)
    | RawCursor(line: U16, column: U8)

  const DefaultBodyUIElement := ContentType(false)
  const DefaultBodyContent := BodyContent.NONE
  const DefaultRawBodyContentType := RawBodyContentType.Text

  /** The content type names. */
  const BodyContentNames: set<seq<char>> :=
    {"None", "Form Data", "Form URL-encoded", "Text", "Json", "Html", "Xml"}

  /** The content type with the given name; any other text gives `NONE`.
      Owned and borrowed strings are the same here, so this is both
      `from_str` and `from_string`. */
  function BodyContentFromStr(input: seq<char>): (r: BodyContent)
    ensures input in BodyContentNames ==> r.ToString() == input
    ensures input !in BodyContentNames ==> r == DefaultBodyContent
  {
    match input
    case "None" => BodyContent.NONE
    case "Form Data" => FormData
    case "Form URL-encoded" => FormURLEncoded
    case "Text" => BodyContent.Text
    case "Json" => BodyContent.Json
    case "Html" => BodyContent.Html
    case "Xml" => BodyContent.Xml
    case _ => DefaultBodyContent
  }

  /** Every content type is recovered from its name. */
  lemma BodyContentRoundTrip(c: BodyContent)
    ensures BodyContentFromStr(c.ToString()) == c
  {
  }

  /** The content types in select order: Json comes before Text. */
  function BodyContentIter(): (r: seq<BodyContent>)
    ensures |r| == 7
    ensures forall i, j :: 0 <= i < j < |r| ==> r[i] != r[j]
  {
    [BodyContent.NONE, FormData, FormURLEncoded, BodyContent.Json, BodyContent.Text, BodyContent.Html, BodyContent.Xml]
  }

  /** The names of `BodyContentIter`, in its order. */
  method BodyContentAsStringVec() returns (v: seq<seq<char>>)
    ensures |v| == |BodyContentIter()|
    ensures forall i :: 0 <= i < |v| ==> v[i] == BodyContentIter()[i].ToString()
    ensures v == ["None", "Form Data", "Form URL-encoded", "Json", "Text", "Html", "Xml"]
  {
    v := [];
    var items := BodyContentIter();
    for i := 0 to |items|
      invariant |v| == i
      invariant forall j :: 0 <= j < i ==> v[j] == items[j].ToString()
    {
      v := v + [items[i].ToString()];
    }
  }

  /** The raw content type names; matching is case-sensitive. */
  const RawBodyContentNames: set<seq<char>> := {"Text", "JSON", "HTML", "XML"}

  /** The raw content type with the given name; any other text (such as
      "Json") gives `Text`. */
  function RawBodyContentTypeFromStr(input: seq<char>): (r: RawBodyContentType)
    ensures input in RawBodyContentNames ==> r.ToString() == input
    ensures input !in RawBodyContentNames ==> r == DefaultRawBodyContentType
  {
    match input
    case "Text" => RawBodyContentType.Text
    case "JSON" => RawBodyContentType.Json
    case "HTML" => RawBodyContentType.Html
    case "XML" => RawBodyContentType.Xml
    case _ => DefaultRawBodyContentType
  }

  /** Every raw content type is recovered from its name. */
  lemma RawBodyContentTypeRoundTrip(c: RawBodyContentType)
    ensures RawBodyContentTypeFromStr(c.ToString()) == c
  {
  }

  function RawBodyContentTypeIter(): (r: seq<RawBodyContentType>)
    ensures |r| == 4
    ensures forall i, j :: 0 <= i < j < |r| ==> r[i] != r[j]
  {
    [RawBodyContentType.Text, RawBodyContentType.Json, RawBodyContentType.Html, RawBodyContentType.Xml]
  }

  /** The names of `RawBodyContentTypeIter`, in its order. */
  method RawBodyContentTypeAsStringVec() returns (v: seq<seq<char>>)
    ensures |v| == |RawBodyContentTypeIter()|
    ensures forall i :: 0 <= i < |v| ==> v[i] == RawBodyContentTypeIter()[i].ToString()
    ensures v == ["Text", "JSON", "HTML", "XML"]
  {
    v := [];
    var items := RawBodyContentTypeIter();
    for i := 0 to |items|
      invariant |v| == i
      invariant forall j :: 0 <= j < i ==> v[j] == items[j].ToString()
    {
      v := v + [items[i].ToString()];
    }
  }

  class Body {
    var activeBodyElement: BodyUIElement
    var bodyContent: BodyContent
    var bodyContentSelIndex: U8
    var bodyContentOptions: seq<seq<char>>
    var bodyContentScrollOffset: U8
    var rawBodyContent: RawBodyContentType
    var rawBodyContentOptions: seq<seq<char>>
    var rawBodyContentSelIndex: U8
    var cursorPosition: BodyCursorPosition
    var kvData: seq<KVData>
    var textData: seq<char>
    var dispContentLen: U8

    /** The content type selection points at one of the options. */
    ghost predicate SelectionInRange()
      reads this
    {
      bodyContentSelIndex < |bodyContentOptions|
    }

    /** `Body::default()`: the content type select is active and closed,
        no content type, raw type Text, first options selected, popup
        length 5. */
    constructor ()
      ensures SelectionInRange()
      ensures activeBodyElement == ContentType(false)
      ensures bodyContent == BodyContent.NONE && rawBodyContent == RawBodyContentType.Text
      ensures bodyContentSelIndex == 0 && rawBodyContentSelIndex == 0 && bodyContentScrollOffset == 0
      ensures bodyContentOptions == ["None", "Form Data", "Form URL-encoded", "Json", "Text", "Html", "Xml"]
      ensures rawBodyContentOptions == ["Text", "JSON", "HTML", "XML"]
      ensures cursorPosition == BodyCursorPosition.NONE
      ensures kvData == [] && textData == [] && dispContentLen == 5
    {
      var options := BodyContentAsStringVec();
      var rawOptions := RawBodyContentTypeAsStringVec();
      activeBodyElement := DefaultBodyUIElement;
      bodyContent := DefaultBodyContent;
      bodyContentSelIndex := 0;
      bodyContentOptions := options;
      bodyContentScrollOffset := 0;
      rawBodyContent := DefaultRawBodyContentType;
      rawBodyContentOptions := rawOptions;
      rawBodyContentSelIndex := 0;
      cursorPosition := BodyCursorPosition.NONE;
      kvData := [];
      textData := [];
      dispContentLen := 5;
    }

    method SetActiveBodyElement(e: BodyUIElement)
      modifies this`activeBodyElement
      ensures activeBodyElement == e
    {
      activeBodyElement := e;
    }

    method SetBodyContent(c: BodyContent)
      modifies this`bodyContent
      ensures bodyContent == c
    {
      bodyContent := c;
    }

    method SetBodyContentSelIndex(i: U8)
      modifies this`bodyContentSelIndex
      ensures bodyContentSelIndex == i
    {
      bodyContentSelIndex := i;
    }

    method SetBodyContentOptions(options: seq<seq<char>>)
      modifies this`bodyContentOptions
      ensures bodyContentOptions == options
    {
      bodyContentOptions := options;
    }

    method SetRawBodyContent(c: RawBodyContentType)
      modifies this`rawBodyContent
      ensures rawBodyContent == c
    {
      rawBodyContent := c;
    }

    method SetRawBodyContentOptions(options: seq<seq<char>>)
      modifies this`rawBodyContentOptions
      ensures rawBodyContentOptions == options
    {
      rawBodyContentOptions := options;
    }

    method SetRawBodyContentSelIndex(i: U8)
      modifies this`rawBodyContentSelIndex
      ensures rawBodyContentSelIndex == i
    {
      rawBodyContentSelIndex := i;
    }

    method SetCursorPosition(p: BodyCursorPosition)
      modifies this`cursorPosition
      ensures cursorPosition == p
    {
      cursorPosition := p;
    }

    method SetDispContentLen(n: U8)
      modifies this`dispContentLen
      ensures dispContentLen == n
    {
      dispContentLen := n;
    }

    method SetBodyContentScrollOffset(offset: U8)
      modifies this`bodyContentScrollOffset
      ensures bodyContentScrollOffset == offset
    {
      bodyContentScrollOffset := offset;
    }
  }
}
