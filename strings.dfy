/** Character-sequence helpers shared by the parsers and formatters:
    `str::split` on one character, its inverse (joining with that
    character), and the text before the first separator. */
module Strings {

  /** Number of occurrences of `c` in `s`. */
  function Count(s: seq<char>, c: char): nat
  {
    if s == [] then 0 else (if s[0] == c then 1 else 0) + Count(s[1..], c)
  }

  /** The text before the first `sep`, or all of `s` when it has none. */
  function TakeUntil(s: seq<char>, sep: char): (r: seq<char>)
    ensures sep !in r
    ensures r <= s
    ensures |r| < |s| ==> s[|r|] == sep
    ensures sep !in s <==> r == s
  {
    if s == [] then [] else if s[0] == sep then [] else [s[0]] + TakeUntil(s[1..], sep)
  }

  /** The text after the first `sep`. */
  function AfterFirst(s: seq<char>, sep: char): (r: seq<char>)
    requires sep in s
    ensures s == TakeUntil(s, sep) + [sep] + r
  {
    s[|TakeUntil(s, sep)| + 1..]
  }

  /** `s.split(sep).collect()`: the maximal `sep`-free pieces of `s`, in order. */
  function Split(s: seq<char>, sep: char): (r: seq<seq<char>>)
    ensures |r| == Count(s, sep) + 1
    ensures forall i :: 0 <= i < |r| ==> sep !in r[i]
    ensures r[0] == TakeUntil(s, sep)
  {
    if s == [] then [[]]
    else
      var rest := Split(s[1..], sep);
      if s[0] == sep then [[]] + rest
      else [[s[0]] + rest[0]] + rest[1..]
  }

  /** The pieces with `sep` between each two neighbours. */
  function Join(parts: seq<seq<char>>, sep: char): seq<char>
    requires |parts| >= 1
  {
    if |parts| == 1 then parts[0] else parts[0] + [sep] + Join(parts[1..], sep)
  }

  lemma {:induction false} CountConcat(a: seq<char>, b: seq<char>, c: char)
    ensures Count(a + b, c) == Count(a, c) + Count(b, c)
  {
    if a != [] {
      assert (a + b)[1..] == a[1..] + b;
      CountConcat(a[1..], b, c);
    } else {
      assert a + b == b;
    }
  }

  lemma {:induction false} CountZero(s: seq<char>, c: char)
    ensures Count(s, c) == 0 <==> c !in s
  {
    if s != [] {
      CountZero(s[1..], c);
      assert s == [s[0]] + s[1..];
    }
  }

  /** Joining the pieces of a split gives back the text. */
  lemma {:induction false} JoinSplit(s: seq<char>, sep: char)
    ensures Join(Split(s, sep), sep) == s
  {
    if s != [] {
      var rest := Split(s[1..], sep);
      JoinSplit(s[1..], sep);
      if s[0] != sep {
        JoinConsFirst([s[0]], rest, sep);
      }
    }
  }

  lemma {:induction false} JoinConsFirst(x: seq<char>, parts: seq<seq<char>>, sep: char)
    requires |parts| >= 1
    ensures Join([x + parts[0]] + parts[1..], sep) == x + Join(parts, sep)
  {
    var ps := [x + parts[0]] + parts[1..];
    assert ps[1..] == parts[1..];
  }

  /** A text without `sep` is one piece. */
  lemma {:induction false} SplitNoSep(s: seq<char>, sep: char)
    requires sep !in s
    ensures Split(s, sep) == [s]
  {
    CountZero(s, sep);
    var r := Split(s, sep);
    assert |r| == 1;
  }

  /** A `sep`-free prefix ending at a `sep` becomes the first piece. */
  lemma {:induction false} SplitAppend(a: seq<char>, b: seq<char>, sep: char)
    requires sep !in a
    ensures Split(a + [sep] + b, sep) == [a] + Split(b, sep)
  {
    var s := a + [sep] + b;
    if a == [] {
      assert s[1..] == b;
    } else {
      assert s[1..] == a[1..] + [sep] + b;
      SplitAppend(a[1..], b, sep);
      assert [a[0]] + a[1..] == a;
    }
  }

  /** The split at the first separator. */
  lemma SplitAtFirst(s: seq<char>, sep: char)
    requires sep in s
    ensures Split(s, sep) == [TakeUntil(s, sep)] + Split(AfterFirst(s, sep), sep)
    ensures Count(s, sep) == 1 + Count(AfterFirst(s, sep), sep)
  {
    var k, rest := TakeUntil(s, sep), AfterFirst(s, sep);
    SplitAppend(k, rest, sep);
    CountConcat(k + [sep], rest, sep);
    CountConcat(k, [sep], sep);
    CountZero(k, sep);
  }

  /** A text with exactly one separator splits into the parts around it. */
  lemma SplitPair(s: seq<char>, sep: char)
    requires |Split(s, sep)| == 2
    ensures sep in s && Count(s, sep) == 1
    ensures Split(s, sep)[1] == AfterFirst(s, sep)
  {
    CountZero(s, sep);
    SplitAtFirst(s, sep);
    CountZero(AfterFirst(s, sep), sep);
    SplitNoSep(AfterFirst(s, sep), sep);
  }

  /** Splitting the joined pieces gives back the pieces, when none holds `sep`. */
  lemma {:induction false} SplitJoin(parts: seq<seq<char>>, sep: char)
    requires |parts| >= 1
    requires forall i :: 0 <= i < |parts| ==> sep !in parts[i]
    ensures Split(Join(parts, sep), sep) == parts
  {
    if |parts| == 1 {
      SplitNoSep(parts[0], sep);
    } else {
      SplitJoin(parts[1..], sep);
      SplitAppend(parts[0], Join(parts[1..], sep), sep);
    }
  }

  /** Joining one more piece appends the separator and that piece. */
  lemma {:induction false} JoinSnoc(parts: seq<seq<char>>, x: seq<char>, sep: char)
    requires |parts| >= 1
    ensures Join(parts + [x], sep) == Join(parts, sep) + [sep] + x
  {
    if |parts| > 1 {
      assert (parts + [x])[1..] == parts[1..] + [x];
      JoinSnoc(parts[1..], x, sep);
    }
  }

  /** `String::pop`: drops the last character, if any. */
  function PopChar(s: seq<char>): (r: seq<char>)
    ensures s == [] ==> r == []
    ensures s != [] ==> r + [s[|s| - 1]] == s
  {
    if s == [] then [] else s[..|s| - 1]
  }

  /** Popping after pushing gives back the text. */
  lemma PopCharPush(s: seq<char>, c: char)
    ensures PopChar(s + [c]) == s
  {
    assert (s + [c])[..|s|] == s;
  }

  /** `char::to_ascii_uppercase`: only 'a'..'z' change. */
  function ToAsciiUpper(c: char): (r: char)
    ensures 'a' <= c <= 'z' ==> 'A' <= r <= 'Z' && r as int == c as int - 32
    ensures !('a' <= c <= 'z') ==> r == c
  {
    if 'a' <= c <= 'z' then (c as int - 32) as char else c
  }
}
