/** Wrapping the response text into lines of the response area's width. */
module UiText {

  /** The pieces laid end to end. */
  function Concat(parts: seq<seq<char>>): seq<char>
  {
    if parts == [] then [] else parts[0] + Concat(parts[1..])
  }

  /** `string_chunks`: consecutive pieces of `maxWidth` characters, the last
      one possibly shorter. `<[char]>::chunks` panics on a width of 0. */
  function StringChunks(input: seq<char>, maxWidth: nat): (r: seq<seq<char>>)
    requires maxWidth > 0
    ensures Concat(r) == input
    ensures forall i :: 0 <= i < |r| ==> 0 < |r[i]| <= maxWidth
    ensures forall i :: 0 <= i < |r| - 1 ==> |r[i]| == maxWidth
    decreases |input|
  {
    if input == [] then []
    else if |input| <= maxWidth then [input]
    else [input[..maxWidth]] + StringChunks(input[maxWidth..], maxWidth)
  }

  /** The number of pieces is the length divided by the width, rounded up;
      no text gives no pieces. */
  lemma {:induction false} ChunkCount(input: seq<char>, maxWidth: nat)
    requires maxWidth > 0
    ensures |StringChunks(input, maxWidth)| == (|input| + maxWidth - 1) / maxWidth
    decreases |input|
  {
    var w := maxWidth;
    if input == [] {
      DivUnique(w - 1, w, 0, w - 1);
    } else if |input| <= w {
      DivOne(|input| + w - 1, w);
    } else {
      var rest := input[w..];
      ChunkCount(rest, w);
      assert |StringChunks(input, w)| == 1 + |StringChunks(rest, w)|;
      assert |rest| + w - 1 == |input| - 1;
      DivShift(|input| - 1, w);
      assert |input| - 1 + w == |input| + w - 1;
    }
  }

  lemma DivOne(a: nat, b: nat)
    requires 0 < b <= a < 2 * b
    ensures a / b == 1
  {
    DivUnique(a, b, 1, a - b);
  }

  lemma DivShift(a: nat, b: nat)
    requires b > 0
    ensures (a + b) / b == a / b + 1
  {
    var q, r := a / b, a % b;
    assert a + b == (q + 1) * b + r;
    DivUnique(a + b, b, q + 1, r);
  }

  lemma DivUnique(x: nat, b: nat, q: nat, r: nat)
    requires b > 0 && r < b && x == q * b + r
    ensures x / b == q
  {
    var q', r' := x / b, x % b;
    assert q' * b + r' == q * b + r;
    if q' > q {
      assert (q' - q) * b == q' * b - q * b;
      MulStep(q' - q, b);
    } else if q' < q {
      assert (q - q') * b == q * b - q' * b;
      MulStep(q - q', b);
    }
  }

  lemma {:induction false} MulStep(d: nat, b: nat)
    requires d >= 1
    ensures d * b >= b
  {
    if d > 1 {
      MulStep(d - 1, b);
      assert d * b == (d - 1) * b + b;
    }
  }
}
