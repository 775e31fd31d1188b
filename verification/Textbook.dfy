/** The rescanning encoder of section 6.3 of RFC 3492. */
module Textbook {
  import opened Bootstring

  /** One emitted delta, with the bias it was written under. */
  datatype Step = Step(delta: nat, bias: nat)

  /** The variables of the encoder, and the deltas it has emitted so far. */
  datatype Coder = Coder(n: nat, delta: nat, bias: nat, handled: nat, output: Text, trace: seq<Step>)

  /** How many code points of `input` are below `m`. */
  function CountBelow(input: Text, m: nat): (count: nat)
    ensures count <= |input|
  {
    if input == [] then 0
    else CountBelow(input[..|input| - 1], m) + (if input[|input| - 1] < m then 1 else 0)
  }

  /** The code points below `m`, in their order. */
  function Below(input: Text, m: nat): (below: Text)
    ensures |below| == CountBelow(input, m)
  {
    if input == [] then []
    else Below(input[..|input| - 1], m) + (if input[|input| - 1] < m then [input[|input| - 1]] else [])
  }

  lemma CountStep(input: Text, p: nat, m: nat)
    requires p < |input|
    ensures CountBelow(input[..p + 1], m) == CountBelow(input[..p], m) + (if input[p] < m then 1 else 0)
  {
    assert input[..p + 1][..p] == input[..p];
  }

  lemma {:induction false} CountBounds(input: Text, m: nat, m': nat)
    requires m <= m'
    ensures CountBelow(input, m) <= CountBelow(input, m')
    ensures CountBelow(input, m) == CountBelow(input, m') <==> forall i | 0 <= i < |input| :: !(m <= input[i] < m')
  {
    if input != [] {
      var front := input[..|input| - 1];
      CountBounds(front, m, m');
      assert forall i | 0 <= i < |front| :: front[i] == input[i];
      if forall i | 0 <= i < |front| :: !(m <= front[i] < m') {
        assert forall i | 0 <= i < |input| :: !(m <= input[i] < m') <==> i < |front| || !(m <= input[|front|] < m');
      }
    }
  }

  lemma {:induction false} CountAll(input: Text, m: nat)
    ensures CountBelow(input, m) == |input| <==> forall i | 0 <= i < |input| :: input[i] < m
  {
    if input != [] { CountAll(input[..|input| - 1], m); }
  }

  /** The least code point of `input` that is at least `n`. */
  function Least(input: Text, n: nat): (m: nat)
    requires CountBelow(input, n) < |input|
    ensures n <= m && m in input
    ensures forall i | 0 <= i < |input| :: input[i] < n || m <= input[i]
  {
    var last := input[|input| - 1];
    var front := input[..|input| - 1];
    if CountBelow(front, n) < |front| then
      var m := Least(front, n);
      assert forall i | 0 <= i < |front| :: front[i] == input[i];
      if n <= last < m then last else m
    else
      assert forall i | 0 <= i < |front| :: input[i] < n by {
        CountAll(front, n);
        assert forall i | 0 <= i < |front| :: front[i] == input[i];
      }
      last
  }

  /** The body of the inner loop, for the code point `c`. */
  function Visit(s: Coder, c: CodePoint, basic: nat): Coder {
    if c < s.n then s.(delta := s.delta + 1)
    else if c == s.n then Emit(s, basic)
    else s
  }

  function Emit(s: Coder, basic: nat): Coder {
    Coder(s.n, 0, Adapt(s.delta, s.handled + 1, s.handled == basic), s.handled + 1,
          s.output + Chars(Vlq(s.delta, BASE, s.bias)), s.trace + [Step(s.delta, s.bias)])
  }

  /** The inner loop, from position `p` on. */
  function Sweep(s: Coder, input: Text, p: nat, basic: nat): Coder
    requires p <= |input|
    decreases |input| - p
  {
    if p == |input| then s else Sweep(Visit(s, input[p], basic), input, p + 1, basic)
  }

  /** The sweep handles exactly the occurrences of `n`. */
  lemma {:induction false} SweepHandles(s: Coder, input: Text, p: nat, basic: nat)
    requires p <= |input|
    ensures var s' := Sweep(s, input, p, basic);
            && s'.n == s.n
            && s'.handled + CountBelow(input[..p], s.n + 1) + CountBelow(input, s.n)
               == s.handled + CountBelow(input, s.n + 1) + CountBelow(input[..p], s.n)
    decreases |input| - p
  {
    if p == |input| {
      assert input[..p] == input;
    } else {
      CountStep(input, p, s.n);
      CountStep(input, p, s.n + 1);
      SweepHandles(Visit(s, input[p], basic), input, p + 1, basic);
    }
  }

  function Jump(delta: nat, gap: nat, size: nat): (delta': nat)
    ensures delta' >= delta
  {
    delta + gap * size
  }

  /** Advances `n` to the least code point that is still to be handled. */
  function Advance(s: Coder, m: nat): Coder
    requires s.n <= m
  {
    s.(delta := Jump(s.delta, m - s.n, s.handled + 1), n := m)
  }

  /** One round of the outer loop. */
  function Round(s: Coder, input: Text, basic: nat): (s': Coder)
    requires s.handled == CountBelow(input, s.n) < |input|
    ensures s'.handled == CountBelow(input, s'.n) && s.n < s'.n <= 0x110000
  {
    var m := Least(input, s.n);
    var s1 := Advance(s, m);
    var s2 := Sweep(s1, input, 0, basic);
    assert s2.n == m && s2.handled == CountBelow(input, m + 1) by {
      SweepHandles(s1, input, 0, basic);
      assert input[..0] == [];
      CountBounds(input, s.n, m);
    }
    s2.(delta := s2.delta + 1, n := s2.n + 1)
  }

  /** The outer loop. */
  function Rounds(s: Coder, input: Text, basic: nat): Coder
    requires s.handled == CountBelow(input, s.n) && s.n <= 0x110000
    decreases 0x110000 - s.n
  {
    if s.handled < |input| then Rounds(Round(s, input, basic), input, basic) else s
  }

  /** The basic code points, and a delimiter if there are any. */
  function Prefix(input: Text): Text {
    Below(input, INITIAL_N) + (if CountBelow(input, INITIAL_N) > 0 then [DELIMITER] else [])
  }

  function Start(input: Text): Coder {
    Coder(INITIAL_N, 0, INITIAL_BIAS, CountBelow(input, INITIAL_N), Prefix(input), [])
  }

  function Run(input: Text): Coder {
    Rounds(Start(input), input, CountBelow(input, INITIAL_N))
  }

  function Encode(input: Text): Text {
    Run(input).output
  }
}
