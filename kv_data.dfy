/** A key-value row of the headers table, with its `key=value` text form. */
module KvData {
  import opened Strings

  datatype KVData = KVData(key: seq<char>, value: seq<char>)
  {
    /** `set_key`: the row with its key replaced. */
    function SetKey(k: seq<char>): (r: KVData)
      ensures r.key == k && r.value == value
    {
      this.(key := k)
    }

    /** `set_value`: the row with its value replaced. */
    function SetValue(v: seq<char>): (r: KVData)
      ensures r.value == v && r.key == key
    {
      this.(value := v)
    }

    /** `key=value` when both are set, the bare key when only it is set,
        and the empty text when the key is empty. */
    function ToString(): (r: seq<char>)
      ensures r == [] <==> key == []
      ensures key != [] ==> key <= r
      ensures key != [] && value != [] ==> r[|key|..] == "=" + value
      ensures value == [] ==> r == key
    {
      if key != [] && value != [] then key + "=" + value
      else if key != [] then key
      else []
    }
  }

  /** `KVData::default()`. */
  const Default := KVData([], [])

  /** Parses `key=value`: the key is the text before the first `=`, and the
      value is kept only when the text holds exactly one `=`. Owned and
      borrowed strings are the same here, so this is both `from_str` and
      `from_string`. */
  function FromStr(input: seq<char>): (r: KVData)
    ensures input == [] ==> r == Default
    ensures r.key == TakeUntil(input, '=')
    ensures r.value == if '=' in input && Count(input, '=') == 1 then AfterFirst(input, '=') else []
    ensures '=' !in r.key && '=' !in r.value
  {
    if input == [] then Default
    else
      var pieces := Split(input, '=');
      if |pieces| == 2 then
        SplitPair(input, '=');
        KVData(pieces[0], pieces[1])
      else
        KVData(pieces[0], [])
  }

  /** Formatting then parsing gives back the row, when the key is set and
      neither field holds `=`. */
  lemma FromStrToString(kv: KVData)
    requires kv.key != [] && '=' !in kv.key && '=' !in kv.value
    ensures FromStr(kv.ToString()) == kv
  {
    if kv.value != [] {
      SplitAppend(kv.key, kv.value, '=');
      SplitNoSep(kv.value, '=');
    } else {
      SplitNoSep(kv.key, '=');
    }
  }

  /** Parsing then formatting gives back the text, when it has no `=`, or
      one `=` with text on both sides. */
  lemma ToStringFromStr(s: seq<char>)
    requires '=' !in s || (Count(s, '=') == 1 && TakeUntil(s, '=') != [] && AfterFirst(s, '=') != [])
    ensures FromStr(s).ToString() == s
  {
    if '=' !in s {
      CountZero(s, '=');
    }
  }
}
