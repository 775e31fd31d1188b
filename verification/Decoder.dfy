/** The decoder of section 6.2 of RFC 3492. */
module Decoder {
  import opened Wrappers
  import opened Arithmetic
  import opened Bootstring

  /** The decoder's `n`, `i` and output. */
  datatype Cursor = Cursor(n: nat, i: nat, output: seq<nat>)

  function Insert<T>(s: seq<T>, p: nat, x: T): seq<T>
    requires p <= |s|
  {
    s[..p] + [x] + s[p..]
  }

  /** What the outer loop does with the delta it has read. */
  function Put(d: Cursor, delta: nat): Cursor {
    var size := |d.output| + 1;
    var i := d.i + delta;
    DivMod(i, size);
    Cursor(d.n + Div(i, size), Mod(i, size) + 1, Insert(d.output, Mod(i, size), d.n + Div(i, size)))
  }

  /** The outer loop, over the rest of the text. */
  function Loop(text: Text, bias: nat, d: Cursor): Option<seq<nat>>
    decreases |text|
  {
    if text == [] then Some(d.output)
    else
      var (i, rest) :- ReadVlq(text, BASE, bias, d.i, 1);
      var d' := Put(d, i - d.i);
      if d'.n < INITIAL_N then None
      else Loop(rest, Adapt(i - d.i, |d.output| + 1, d.i == 0), d')
  }

  /** Where the last delimiter is, or -1. */
  function LastDelimiter(text: Text): (p: int)
    ensures -1 <= p < |text|
    ensures p >= 0 ==> text[p] == DELIMITER
    ensures forall i | p < i < |text| :: text[i] != DELIMITER
  {
    if text == [] then -1
    else if text[|text| - 1] == DELIMITER then |text| - 1
    else LastDelimiter(text[..|text| - 1])
  }

  /** The delimiter is consumed only if something stands before it. */
  function Decode(text: Text): Option<seq<nat>> {
    var p := LastDelimiter(text);
    if p <= 0 then Loop(text, INITIAL_BIAS, Cursor(INITIAL_N, 0, []))
    else if forall i | 0 <= i < p :: Basic(text[i]) then
      Loop(text[p + 1..], INITIAL_BIAS, Cursor(INITIAL_N, 0, text[..p]))
    else None
  }
}
