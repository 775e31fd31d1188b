/** Decoding what the textbook encoder writes gives its input back. */
module RoundTrip {
  import opened Wrappers
  import opened Arithmetic
  import opened Bootstring
  import opened Textbook
  import Decoder

  // ---------- the deltas rebuild the input ----------

  /** The decoder's variables after the deltas of `trace`. */
  function Replay(d: Decoder.Cursor, trace: seq<Step>): Decoder.Cursor {
    if trace == [] then d
    else Decoder.Put(Replay(d, trace[..|trace| - 1]), trace[|trace| - 1].delta)
  }

  /** Where the decoder starts once it has copied the basic code points. */
  function Origin(input: Text): Decoder.Cursor {
    Decoder.Cursor(INITIAL_N, 0, Below(input, INITIAL_N))
  }

  /** What has been inserted when the sweep for `m` has come to position `p`. */
  function Inserted(input: Text, m: nat, p: nat): Text
    requires p <= |input|
  {
    Below(input[..p], m + 1) + Below(input[p..], m)
  }

  /**
   * The decoder is at most `delta` states behind position `p` of the sweep. A state is `n` and `i`
   * read as one number to the base `handled + 1`.
   */
  ghost predicate Tracks(input: Text, s: Coder, p: nat)
    requires p <= |input|
  {
    var d := Replay(Origin(input), s.trace);
    && d.output == Inserted(input, s.n, p)
    && |d.output| == s.handled
    && d.n <= s.n
    && d.n * (s.handled + 1) + d.i + s.delta == s.n * (s.handled + 1) + CountBelow(input[..p], s.n + 1)
  }

  lemma {:induction false} BelowFront(input: Text, m: nat)
    requires input != []
    ensures Below(input, m) == (if input[0] < m then [input[0]] else []) + Below(input[1..], m)
  {
    if |input| > 1 {
      BelowFront(input[..|input| - 1], m);
      assert input[1..][..|input| - 2] == input[..|input| - 1][1..];
    }
  }

  lemma InsertedStep(input: Text, m: nat, p: nat)
    requires p < |input|
    ensures input[p] != m ==> Inserted(input, m, p + 1) == Inserted(input, m, p)
    ensures input[p] == m ==>
              Inserted(input, m, p + 1) == Decoder.Insert(Inserted(input, m, p), CountBelow(input[..p], m + 1), m)
  {
    assert input[..p + 1][..p] == input[..p];
    BelowFront(input[p..], m);
    assert input[p..][1..] == input[p + 1..];
  }

  /** One delta takes the decoder to the place and value of the occurrence it was emitted for. */
  lemma PutLands(d: Decoder.Cursor, delta: nat, m: nat, c: nat)
    requires d.n <= m && c <= |d.output|
    requires d.n * (|d.output| + 1) + d.i + delta == m * (|d.output| + 1) + c
    ensures Decoder.Put(d, delta) == Decoder.Cursor(m, c + 1, Decoder.Insert(d.output, c, m))
  {
    var size := |d.output| + 1;
    assert d.i + delta == (m - d.n) * size + c;
    Quotient(d.i + delta, m - d.n, size, c);
  }

  lemma VisitTracks(input: Text, s: Coder, p: nat, basic: nat)
    requires p < |input| && Tracks(input, s, p)
    ensures Tracks(input, Visit(s, input[p], basic), p + 1)
  {
    hide Inserted, Decoder.Put, Adapt, Vlq, Chars;
    var d := Replay(Origin(input), s.trace);
    var s' := Visit(s, input[p], basic);
    CountStep(input, p, s.n + 1);
    InsertedStep(input, s.n, p);
    if input[p] == s.n {
      var c := CountBelow(input[..p], s.n + 1);
      InsertedLength(input, s.n, p);
      PutLands(d, s.delta, s.n, c);
      assert s'.trace[..|s'.trace| - 1] == s.trace;
    }
  }

  lemma InsertedLength(input: Text, m: nat, p: nat)
    requires p <= |input|
    ensures CountBelow(input[..p], m + 1) <= |Inserted(input, m, p)| <= |input|
    ensures p < |input| && input[p] == m ==> |Inserted(input, m, p)| < |input|
  {
    if p < |input| { BelowFront(input[p..], m); }
  }

  /** No code point lies between `m` and `m'`, so nothing more is below `m'`. */
  lemma {:induction false} BelowSame(input: Text, m: nat, m': nat)
    requires m <= m' && forall i | 0 <= i < |input| :: !(m <= input[i] < m')
    ensures Below(input, m) == Below(input, m')
  {
    if input != [] { BelowSame(input[..|input| - 1], m, m'); }
  }

  lemma AdvanceTracks(input: Text, s: Coder, m: nat)
    requires Tracks(input, s, 0) && s.n <= m
    requires forall i | 0 <= i < |input| :: !(s.n <= input[i] < m)
    ensures Tracks(input, Advance(s, m), 0)
  {
    assert input[0..] == input && input[..0] == [];
    BelowSame(input, s.n, m);
    Distribute(m, s.n, s.handled + 1);
  }

  /** After a sweep, the next value begins one wrap further. */
  lemma NextTracks(input: Text, s: Coder)
    requires Tracks(input, s, |input|)
    ensures Tracks(input, s.(delta := s.delta + 1, n := s.n + 1), 0)
  {
    assert input[0..] == input && input[..0] == [] && input[..|input|] == input && input[|input|..] == [];
    Wrap(s.n, s.handled + 1);
  }

  // ---------- what the encoder has written ----------

  /** The text of the emitted deltas. */
  function Spell(trace: seq<Step>): Text {
    if trace == [] then []
    else Spell(trace[..|trace| - 1]) + Spelling(trace[|trace| - 1])
  }

  function Spelling(step: Step): Text {
    Chars(Vlq(step.delta, BASE, step.bias))
  }

  /** The bias once the first `k` deltas have been emitted. */
  function BiasAfter(trace: seq<Step>, k: nat, basic: nat): nat
    requires k <= |trace|
  {
    if k == 0 then INITIAL_BIAS else Adapt(trace[k - 1].delta, basic + k, k == 1)
  }

  /** The output is spelt by the deltas under the biases that the decoder will recompute. */
  ghost predicate Written(input: Text, s: Coder) {
    var basic := CountBelow(input, INITIAL_N);
    && s.output == Prefix(input) + Spell(s.trace)
    && s.handled == basic + |s.trace|
    && s.bias == BiasAfter(s.trace, |s.trace|, basic)
    && forall k: nat | k < |s.trace| :: s.trace[k].bias == BiasAfter(s.trace, k, basic)
  }

  lemma VisitWritten(input: Text, s: Coder, c: CodePoint)
    requires Written(input, s)
    ensures Written(input, Visit(s, c, CountBelow(input, INITIAL_N)))
  {
    hide Adapt, Vlq, Chars, Prefix, CountBelow, BiasAfter;
    if c == s.n {
      var basic := CountBelow(input, INITIAL_N);
      var s' := Visit(s, c, basic);
      assert s'.trace[..|s.trace|] == s.trace;
      forall k: nat | k <= |s.trace| ensures BiasAfter(s'.trace, k, basic) == BiasAfter(s.trace, k, basic) {
        BiasStays(s.trace, Step(s.delta, s.bias), k, basic);
      }
      BiasNext(s.trace, Step(s.delta, s.bias), basic);
    }
  }

  lemma BiasStays(trace: seq<Step>, step: Step, k: nat, basic: nat)
    requires k <= |trace|
    ensures BiasAfter(trace + [step], k, basic) == BiasAfter(trace, k, basic)
  {
  }

  lemma BiasNext(trace: seq<Step>, step: Step, basic: nat)
    ensures BiasAfter(trace + [step], |trace| + 1, basic) == Adapt(step.delta, basic + |trace| + 1, |trace| == 0)
  {
    hide Adapt;
  }

  /** No emitted delta reaches this. */
  function Ceiling(input: Text): nat {
    0x110000 * |input|
  }

  ghost predicate Bounded(input: Text, trace: seq<Step>) {
    forall k: nat | k < |trace| :: trace[k].delta < Ceiling(input)
  }

  /** The pending delta stays below the number of states that the decoder can be behind. */
  lemma DeltaBound(input: Text, s: Coder, p: nat)
    requires p <= |input| && Tracks(input, s, p)
    ensures s.delta < (s.n + 1) * (s.handled + 1)
    ensures p < |input| && input[p] == s.n ==> s.delta < Ceiling(input)
  {
    hide Replay, Inserted, Ceiling, CountBelow;
    var d := Replay(Origin(input), s.trace);
    InsertedLength(input, s.n, p);
    Behind(d.n, d.i, s.delta, s.n, s.handled + 1, CountBelow(input[..p], s.n + 1));
    if p < |input| && input[p] == s.n { Product(s.n + 1, 0x110000, s.handled + 1, |input|); CeilingIs(input); }
  }

  lemma CeilingIs(input: Text)
    ensures Ceiling(input) == 0x110000 * |input|
  {
  }

  lemma Behind(n: nat, i: nat, delta: nat, m: nat, size: nat, c: nat)
    requires n * size + i + delta == m * size + c && c < size
    ensures delta < (m + 1) * size
  {
    Wrap(m, size);
    assert n * size >= 0;
  }

  ghost predicate Sound(input: Text, s: Coder, p: nat)
    requires p <= |input|
  {
    Tracks(input, s, p) && Written(input, s) && Bounded(input, s.trace)
  }

  lemma {:induction false} SweepSound(input: Text, s: Coder, p: nat)
    requires p <= |input| && Sound(input, s, p)
    ensures Sound(input, Sweep(s, input, p, CountBelow(input, INITIAL_N)), |input|)
    decreases |input| - p
  {
    hide Tracks, Written, Adapt, Vlq, Chars;
    if p < |input| {
      var basic := CountBelow(input, INITIAL_N);
      VisitTracks(input, s, p, basic);
      VisitWritten(input, s, input[p]);
      DeltaBound(input, s, p);
      SweepSound(input, Visit(s, input[p], basic), p + 1);
    }
  }

  /** Only an emission changes what has been written. */
  lemma WrittenKept(input: Text, s: Coder, s': Coder)
    requires Written(input, s)
    requires s'.output == s.output && s'.handled == s.handled && s'.bias == s.bias && s'.trace == s.trace
    ensures Written(input, s')
  {
  }

  lemma {:induction false} RoundsSound(input: Text, s: Coder)
    requires s.handled == CountBelow(input, s.n) && s.n <= 0x110000 && Sound(input, s, 0)
    ensures var s' := Rounds(s, input, CountBelow(input, INITIAL_N));
            Sound(input, s', 0) && s'.handled == |input| == CountBelow(input, s'.n)
    decreases 0x110000 - s.n
  {
    hide Tracks, Written, Bounded, Sweep, CountBelow;
    if s.handled < |input| {
      var basic := CountBelow(input, INITIAL_N);
      var m := Least(input, s.n);
      var s1 := Advance(s, m);
      AdvanceTracks(input, s, m);
      WrittenKept(input, s, s1);
      SweepSound(input, s1, 0);
      var s2 := Sweep(s1, input, 0, basic);
      NextTracks(input, s2);
      WrittenKept(input, s2, s2.(delta := s2.delta + 1, n := s2.n + 1));
      RoundsSound(input, Round(s, input, basic));
    }
  }

  lemma StartSound(input: Text)
    ensures Sound(input, Start(input), 0)
  {
    hide Prefix;
    assert input[0..] == input && input[..0] == [];
    assert Prefix(input) + [] == Prefix(input);
  }

  lemma RunSound(input: Text)
    ensures Sound(input, Run(input), 0) && CountBelow(input, Run(input).n) == |input|
  {
    hide Sound, Rounds;
    StartSound(input);
    RoundsSound(input, Start(input));
  }

  lemma {:induction false} BelowAll(input: Text, m: nat)
    requires forall i | 0 <= i < |input| :: input[i] < m
    ensures Below(input, m) == input
  {
    if input != [] { BelowAll(input[..|input| - 1], m); }
  }

  /** The decoder's machine, driven by the deltas of the encoder alone, rebuilds the input. */
  lemma DeltasRebuild(input: Text)
    ensures Replay(Origin(input), Run(input).trace).output == input
  {
    RunSound(input);
    assert input[0..] == input && input[..0] == [];
    CountAll(input, Run(input).n);
    BelowAll(input, Run(input).n);
  }

  /** Every delta the encoder emits is below 0x110000 times the length of the input. */
  lemma DeltasBounded(input: Text)
    ensures forall k: nat | k < |Run(input).trace| :: Run(input).trace[k].delta < 0x110000 * |input|
  {
    RunSound(input);
  }

  // ---------- the text rebuilds the deltas ----------

  lemma {:induction false} SpellFront(trace: seq<Step>)
    requires trace != []
    ensures Spell(trace) == Spelling(trace[0]) + Spell(trace[1..])
  {
    hide Spelling;
    if |trace| == 1 {
      assert trace[..0] == [] == trace[1..];
    } else {
      SpellFront(trace[..|trace| - 1]);
      assert trace[1..][..|trace| - 2] == trace[..|trace| - 1][1..];
    }
  }

  lemma PutShape(d: Decoder.Cursor, delta: nat)
    ensures var d' := Decoder.Put(d, delta);
            |d'.output| == |d.output| + 1 && d'.n >= d.n && d'.i > 0
  {
  }

  lemma {:induction false} ReplayShape(d: Decoder.Cursor, trace: seq<Step>)
    ensures var d' := Replay(d, trace);
            && |d'.output| == |d.output| + |trace|
            && d'.n >= d.n
            && (trace != [] ==> d'.i > 0)
  {
    hide Decoder.Put;
    if trace != [] {
      ReplayShape(d, trace[..|trace| - 1]);
      PutShape(Replay(d, trace[..|trace| - 1]), trace[|trace| - 1].delta);
    }
  }

  /** One turn of the decoder's loop reads one spelling. */
  lemma LoopReads(d: Decoder.Cursor, step: Step, rest: Text)
    requires d.n >= INITIAL_N
    ensures Decoder.Loop(Spelling(step) + rest, step.bias, d)
         == Decoder.Loop(rest, Adapt(step.delta, |d.output| + 1, d.i == 0), Decoder.Put(d, step.delta))
  {
    hide Adapt, Vlq, ReadVlq, Decoder.Put;
    ReadsBack(step.delta, BASE, step.bias, rest, d.i, 1);
    PutShape(d, step.delta);
  }

  /** The decoder reads the deltas from `k` on as they were emitted, under the same biases. */
  lemma {:induction false} LoopReplays(d: Decoder.Cursor, trace: seq<Step>, k: nat)
    requires k <= |trace| && d.i == 0 && d.n >= INITIAL_N
    requires forall j: nat | j < |trace| :: trace[j].bias == BiasAfter(trace, j, |d.output|)
    ensures Decoder.Loop(Spell(trace[k..]), BiasAfter(trace, k, |d.output|), Replay(d, trace[..k]))
            == Some(Replay(d, trace).output)
    decreases |trace| - k
  {
    hide Adapt, Spelling, Spell, Decoder.Put, Decoder.Loop;
    if k == |trace| {
      assert trace[..k] == trace && trace[k..] == [];
      SpellNothing();
      LoopEnds(BiasAfter(trace, k, |d.output|), Replay(d, trace));
    } else {
      var c := Replay(d, trace[..k]);
      ReplayShape(d, trace[..k]);
      SpellFront(trace[k..]);
      assert trace[k..][1..] == trace[k + 1..] && trace[k..][0] == trace[k];
      LoopReads(c, trace[k], Spell(trace[k + 1..]));
      assert trace[..k + 1][..k] == trace[..k];
      LoopReplays(d, trace, k + 1);
    }
  }

  lemma LoopEnds(bias: nat, d: Decoder.Cursor)
    ensures Decoder.Loop([], bias, d) == Some(d.output)
  {
  }

  lemma SpellNothing()
    ensures Spell([]) == []
  {
  }

  lemma {:induction false} SpelledPlainly(trace: seq<Step>)
    ensures DELIMITER !in Spell(trace)
  {
    if trace != [] { SpelledPlainly(trace[..|trace| - 1]); }
  }

  lemma DelimiterIn(input: Text, trace: seq<Step>)
    ensures Decoder.LastDelimiter(Prefix(input) + Spell(trace))
            == (if CountBelow(input, INITIAL_N) > 0 then CountBelow(input, INITIAL_N) else -1)
  {
    hide Spell;
    SpelledPlainly(trace);
    var text := Prefix(input) + Spell(trace);
    var basic := CountBelow(input, INITIAL_N);
    if basic > 0 {
      assert text[basic] == DELIMITER;
      forall i | basic < i < |text| ensures text[i] != DELIMITER { assert text[i] == Spell(trace)[i - basic - 1]; }
    } else {
      assert text == Spell(trace);
    }
  }

  /** The last delimiter of the output ends the basic code points; there is none without basic code points. */
  lemma DelimiterFound(input: Text)
    ensures Decoder.LastDelimiter(Encode(input))
            == if CountBelow(input, INITIAL_N) > 0 then CountBelow(input, INITIAL_N) else -1
  {
    hide Spell, Rounds, Decoder.LastDelimiter, Tracks, CountBelow;
    RunSound(input);
    DelimiterIn(input, Run(input).trace);
  }

  lemma {:induction false} BelowIsBelow(input: Text, m: nat)
    ensures forall i | 0 <= i < |Below(input, m)| :: Below(input, m)[i] < m
  {
    if input != [] { BelowIsBelow(input[..|input| - 1], m); }
  }

  /** Round trip: the decoder of section 6.2 gives back exactly what was encoded. */
  lemma DecodeEncode(input: Text)
    ensures Decoder.Decode(Encode(input)) == Some(input)
  {
    hide Spell, Replay, Decoder.Loop, Rounds, Decoder.LastDelimiter, Tracks;
    var trace := Run(input).trace;
    var basic := CountBelow(input, INITIAL_N);
    var text := Prefix(input) + Spell(trace);
    RunSound(input);
    DelimiterIn(input, trace);
    BelowIsBelow(input, INITIAL_N);
    var tail := if basic > 0 then text[basic + 1..] else text;
    assert tail == Spell(trace);
    assert basic > 0 ==> text[..basic] == Below(input, INITIAL_N);
    LoopReplays(Origin(input), trace, 0);
    assert trace[0..] == trace && trace[..0] == [];
    assert Replay(Origin(input), []) == Origin(input) by { ReplayNothing(Origin(input)); }
    DeltasRebuild(input);
  }

  lemma ReplayNothing(d: Decoder.Cursor)
    ensures Replay(d, []) == d
  {
  }

  /** Different texts are encoded differently. */
  lemma Injective(input: Text, other: Text)
    requires Encode(input) == Encode(other)
    ensures input == other
  {
    DecodeEncode(input);
    DecodeEncode(other);
  }
}
