/** A URL query parameter, with its `name=value` text form. */
module QueryParams {
  import opened Strings

  datatype QueryParam = QueryParam(name: seq<char>, value: seq<char>)
  {
    /** `set_name`: the parameter with its name replaced. */
    function SetName(n: seq<char>): (r: QueryParam)
      ensures r.name == n && r.value == value
    {
      this.(name := n)
    }

    /** `set_value`: the parameter with its value replaced. */
    function SetValue(v: seq<char>): (r: QueryParam)
      ensures r.value == v && r.name == name
    {
      this.(value := v)
    }

    /** `name=value` when both are set, the bare name when only it is set,
        and the empty text when the name is empty. */
    function ToString(): (r: seq<char>)
      ensures r == [] <==> name == []
      ensures name != [] ==> name <= r
      ensures name != [] && value != [] ==> r[|name|..] == "=" + value
      ensures value == [] ==> r == name
    {
      if name != [] && value != [] then name + "=" + value
      else if name != [] then name
      else []
    }
  }

  /** `QueryParam::default()`. */
  const Default := QueryParam([], [])

  /** Parses `name=value`: the name is the text before the first `=`, and
      the value is kept only when the text holds exactly one `=`. Owned and
      borrowed strings are the same here, so this is both `from_str` and
      `from_string`. */
  function FromStr(input: seq<char>): (r: QueryParam)
    ensures input == [] ==> r == Default
    ensures r.name == TakeUntil(input, '=')
    ensures r.value == if '=' in input && Count(input, '=') == 1 then AfterFirst(input, '=') else []
    ensures '=' !in r.name && '=' !in r.value
  {
    if input == [] then Default
    else
      var pieces := Split(input, '=');
      if |pieces| == 2 then
        SplitPair(input, '=');
        QueryParam(pieces[0], pieces[1])
      else
        QueryParam(pieces[0], [])
  }

  /** Formatting then parsing gives back the parameter, when the name is
      set and neither field holds `=`. */
  lemma FromStrToString(p: QueryParam)
    requires p.name != [] && '=' !in p.name && '=' !in p.value
    ensures FromStr(p.ToString()) == p
  {
    if p.value != [] {
      SplitAppend(p.name, p.value, '=');
      SplitNoSep(p.value, '=');
    } else {
      SplitNoSep(p.name, '=');
    }
  }

  /** Parsing then formatting gives back the text, when it has no `=`, or
      one `=` with text on both sides. */
  lemma ToStringFromStr(s: seq<char>)
    requires '=' !in s || (Count(s, '=') == 1 && TakeUntil(s, '=') != [] && AfterFirst(s, '=') != [])
    ensures FromStr(s).ToString() == s
  {
    if '=' !in s {
      CountZero(s, '=');
    }
  }
}
