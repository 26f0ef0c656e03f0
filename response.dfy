/** The response shown in the response area: its lines, whether a response
    has arrived, the scroll position, and the request count it was cached at. */
module ResponseState {
  import opened Ints
  import opened Strings

  class Response {
    var cacheReqCounter: U8
    var response: seq<seq<char>>
    var initialized: bool
    var scrollPos: U16

    /** `Response::default()`: nothing received yet. */
    constructor ()
      ensures cacheReqCounter == 0 && response == [] && !initialized && scrollPos == 0
    {
      cacheReqCounter, response, initialized, scrollPos := 0, [], false, 0;
    }

    method SetCacheReqCounter(counter: U8)
      modifies this`cacheReqCounter
      ensures cacheReqCounter == counter
    {
      cacheReqCounter := counter;
    }

    method SetResponse(lines: seq<seq<char>>)
      modifies this`response, this`initialized
      ensures response == lines && initialized
    {
      response := lines;
      initialized := true;
    }

    /** Stores the response text as its lines: one more line than there are
        line breaks (so an empty text is one empty line), none holding a
        line break, and joined with line breaks they give back the text. */
    method FromStr(respText: seq<char>)
      modifies this`response, this`initialized
      ensures initialized
      ensures response == Split(respText, '\n')
      ensures |response| == Count(respText, '\n') + 1
      ensures forall i :: 0 <= i < |response| ==> '\n' !in response[i]
      ensures Join(response, '\n') == respText
    {
      response := Split(respText, '\n');
      initialized := true;
      JoinSplit(respText, '\n');
    }

    method SetScrollPos(pos: U16)
      modifies this`scrollPos
      ensures scrollPos == pos
    {
      scrollPos := pos;
    }
  }
}
