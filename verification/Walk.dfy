/**
 * The textbook's encoder, followed along the sorted pairs: where it emits, and what. The deltas
 * come out in closed form.
 */
module Walk {
  import opened Arithmetic
  import opened Bootstring
  import opened Pairs
  import opened RoundTrip
  import opened Textbook
  import Decoder

  /** Up to the next occurrence, a sweep only counts the code points below `n`. */
  lemma {:induction false} Skip(s: Coder, input: Text, q: nat, p: nat, basic: nat)
    requires q <= p <= |input| && forall x | q <= x < p :: input[x] != s.n
    ensures CountBelow(input[..q], s.n) <= CountBelow(input[..p], s.n)
    ensures var c := CountBelow(input[..p], s.n) - CountBelow(input[..q], s.n);
            Sweep(s, input, q, basic) == Sweep(s.(delta := s.delta + c), input, p, basic)
    decreases p - q
  {
    if q < p {
      CountStep(input, q, s.n);
      Skip(Visit(s, input[q], basic), input, q + 1, p, basic);
    }
  }

  /** The decoder stays as far behind. */
  lemma {:induction false} SkipTracks(s: Coder, input: Text, q: nat, p: nat)
    requires q <= p <= |input| && (forall x | q <= x < p :: input[x] != s.n) && Tracks(input, s, q)
    ensures CountBelow(input[..q], s.n) <= CountBelow(input[..p], s.n)
    ensures Tracks(input, s.(delta := s.delta + CountBelow(input[..p], s.n) - CountBelow(input[..q], s.n)), p)
    decreases p - q
  {
    hide Tracks;
    if q < p {
      CountStep(input, q, s.n);
      VisitTracks(input, s, q, 0);
      SkipTracks(Visit(s, input[q], 0), input, q + 1, p);
    }
  }

  // ---------- the deltas in closed form ----------

  /** How many code points up to the value of pair `k` lie left of its position. */
  function LeftOf(input: Text, pairs: seq<Pair>, k: nat): nat
    requires k < |pairs| && pairs[k].position <= |input|
  {
    CountBelow(input[..pairs[k].position], pairs[k].value + 1)
  }

  /** The value that the decoder has reached after `k` pairs. */
  function ValueBefore(pairs: seq<Pair>, k: nat): nat
    requires k <= |pairs|
  {
    if k == 0 then INITIAL_N else pairs[k - 1].value
  }

  /** The index that the decoder has reached after `k` pairs. */
  function IndexBefore(input: Text, pairs: seq<Pair>, k: nat): nat
    requires k <= |pairs| && (k > 0 ==> pairs[k - 1].position <= |input|)
  {
    if k == 0 then 0 else LeftOf(input, pairs, k - 1) + 1
  }

  /** The delta of pair `k`, from the pairs alone. */
  function PairDelta(input: Text, pairs: seq<Pair>, k: nat): int
    requires k < |pairs| && pairs[k].position <= |input| && (k > 0 ==> pairs[k - 1].position <= |input|)
  {
    (pairs[k].value - ValueBefore(pairs, k)) * (CountBelow(input, INITIAL_N) + k + 1)
    + LeftOf(input, pairs, k) - IndexBefore(input, pairs, k)
  }

  ghost predicate InInput(input: Text, pairs: seq<Pair>) {
    forall k | 0 <= k < |pairs| :: pairs[k].position <= |input|
  }

  /** The first `i` pairs have been emitted, and the decoder is at the last of them. */
  ghost predicate Landed(input: Text, pairs: seq<Pair>, i: nat, trace: seq<Step>) {
    && InInput(input, pairs) && |trace| == i <= |pairs|
    && Replay(Origin(input), trace).n == ValueBefore(pairs, i)
    && Replay(Origin(input), trace).i == IndexBefore(input, pairs, i)
    && forall k: nat | k < i :: trace[k].delta == PairDelta(input, pairs, k)
  }

  lemma Solve(n: nat, i: nat, delta: nat, m: nat, size: nat, c: nat)
    requires n <= m && n * size + i + delta == m * size + c
    ensures delta == (m - n) * size + c - i
  {
    Distribute(m, n, size);
  }

  lemma PairDeltaIs(input: Text, pairs: seq<Pair>, i: nat, gap: int, size: nat)
    requires i < |pairs| && InInput(input, pairs)
    requires gap == pairs[i].value - ValueBefore(pairs, i) && size == CountBelow(input, INITIAL_N) + i + 1
    ensures PairDelta(input, pairs, i) == gap * size + LeftOf(input, pairs, i) - IndexBefore(input, pairs, i)
  {
  }

  /** An emission at pair `i` has the delta of that pair. */
  lemma DeltaOfPair(input: Text, pairs: seq<Pair>, i: nat, s: Coder)
    requires i < |pairs| && Landed(input, pairs, i, s.trace)
    requires pairs[i].position < |input| && pairs[i].value == s.n
    requires Tracks(input, s, pairs[i].position) && s.handled == CountBelow(input, INITIAL_N) + i
    ensures s.delta == PairDelta(input, pairs, i)
  {
    hide Tracks, Landed, Replay, CountBelow, PairDelta, ValueBefore, IndexBefore;
    var d := Replay(Origin(input), s.trace);
    LandedAt(input, pairs, i, s.trace);
    TrackedDelta(input, s, pairs[i].position);
    PairDeltaIs(input, pairs, i, s.n - d.n, s.handled + 1);
  }

  lemma LandedAt(input: Text, pairs: seq<Pair>, i: nat, trace: seq<Step>)
    requires Landed(input, pairs, i, trace)
    ensures InInput(input, pairs) && i <= |pairs| && (i > 0 ==> pairs[i - 1].position <= |input|)
    ensures Replay(Origin(input), trace).n == ValueBefore(pairs, i)
    ensures Replay(Origin(input), trace).i == IndexBefore(input, pairs, i)
  {
  }

  /** Solved for the pending delta, how far the decoder is behind. */
  lemma TrackedDelta(input: Text, s: Coder, p: nat)
    requires p <= |input| && Tracks(input, s, p)
    ensures var d := Replay(Origin(input), s.trace);
            d.n <= s.n && s.delta == (s.n - d.n) * (s.handled + 1) + CountBelow(input[..p], s.n + 1) - d.i
  {
    hide Inserted, Replay, CountBelow;
    var d := Replay(Origin(input), s.trace);
    Solve(d.n, d.i, s.delta, s.n, s.handled + 1, CountBelow(input[..p], s.n + 1));
  }

  /** An emission takes the decoder to the pair it is for. */
  lemma CursorLands(input: Text, s: Coder, p: nat, basic: nat)
    requires p < |input| && input[p] == s.n && Tracks(input, s, p)
    ensures var d := Replay(Origin(input), Emit(s, basic).trace);
            d.n == s.n && d.i == CountBelow(input[..p], s.n + 1) + 1
  {
    hide Inserted, Decoder.Put, Adapt, Vlq, Chars, CountBelow;
    var trace := Emit(s, basic).trace;
    assert trace[..|s.trace|] == s.trace;
    InsertedLength(input, s.n, p);
    PutLands(Replay(Origin(input), s.trace), s.delta, s.n, CountBelow(input[..p], s.n + 1));
  }

  lemma Lands(input: Text, pairs: seq<Pair>, i: nat, s: Coder, basic: nat)
    requires i < |pairs| && Landed(input, pairs, i, s.trace)
    requires pairs[i].position < |input| && input[pairs[i].position] == pairs[i].value == s.n
    requires Tracks(input, s, pairs[i].position) && s.handled == CountBelow(input, INITIAL_N) + i
    ensures s.delta == PairDelta(input, pairs, i)
    ensures Landed(input, pairs, i + 1, Emit(s, basic).trace)
  {
    hide Tracks, Replay, PairDelta, Adapt, Vlq, Chars, CountBelow;
    DeltaOfPair(input, pairs, i, s);
    CursorLands(input, s, pairs[i].position, basic);
  }

  // ---------- the textbook at the loop heads of the fast encoder ----------

  /** At the head of the outer loop: the textbook's outer loop has come equally far. */
  ghost predicate AtRound(input: Text, pairs: seq<Pair>, i: nat, s: Coder) {
    var basic := CountBelow(input, INITIAL_N);
    && Plan(input, pairs) && SplitAt(pairs, i, s.n)
    && INITIAL_N <= s.n <= 0x110000
    && s.handled == basic + i == CountBelow(input, s.n)
    && s.delta <= |input| + 1
    && Tracks(input, s, 0) && Landed(input, pairs, i, s.trace)
    && Rounds(s, input, basic) == Run(input)
  }

  /** At the head of the inner loop: the textbook's sweep for `n` has come to `q` on its way to `swept`. */
  ghost predicate InGroup(input: Text, pairs: seq<Pair>, i: nat, s: Coder, q: nat, swept: Coder) {
    var basic := CountBelow(input, INITIAL_N);
    && Plan(input, pairs) && GroupAt(pairs, i, s.n, q) && q <= |input|
    && INITIAL_N <= s.n < 0x110000
    && s.handled == basic + i
    && Tracks(input, s, q) && Landed(input, pairs, i, s.trace)
    && Sweep(s, input, q, basic) == swept
  }

  /** The state after a round that ends in `s`. */
  function NextValue(s: Coder): Coder {
    s.(delta := s.delta + 1, n := s.n + 1)
  }

  /** A round of the textbook ends in `swept`. */
  ghost predicate Leads(input: Text, swept: Coder) {
    && swept.handled == CountBelow(input, swept.n + 1) && swept.n < 0x110000
    && Rounds(NextValue(swept), input, CountBelow(input, INITIAL_N)) == Run(input)
  }

  lemma AtStart(input: Text, pairs: seq<Pair>)
    requires Plan(input, pairs)
    ensures AtRound(input, pairs, 0, Start(input))
  {
    hide Rounds, CountBelow, Plan, Ordered, Tracks;
    PlanStarts(input, pairs);
    StartSound(input);
  }

  lemma PlanStarts(input: Text, pairs: seq<Pair>)
    requires Plan(input, pairs)
    ensures SplitAt(pairs, 0, INITIAL_N) && Landed(input, pairs, 0, [])
  {
  }

  /** The textbook finds the same value next. */
  lemma RoundStarts(input: Text, pairs: seq<Pair>, i: nat, s: Coder) returns (swept: Coder)
    requires AtRound(input, pairs, i, s) && i < |pairs|
    ensures s.n <= pairs[i].value && s.handled < |input|
    ensures CountBelow(input, pairs[i].value) == s.handled
    ensures InGroup(input, pairs, i, Advance(s, pairs[i].value), 0, swept) && Leads(input, swept)
    ensures swept.n == pairs[i].value && SplitAt(pairs, i, pairs[i].value)
    ensures forall p | 0 <= p < |input| :: input[p] < s.n <==> input[p] < pairs[i].value
  {
    hide Sweep, CountBelow, Run, Tracks, Landed;
    var basic := CountBelow(input, INITIAL_N);
    var m: nat := pairs[i].value;
    NextIsLeast(input, pairs, i, s.n);
    var s1 := Advance(s, m);
    swept := Sweep(s1, input, 0, basic);
    SweepHandles(s1, input, 0, basic);
    CountBounds(input, s.n, m);
    AdvanceTracks(input, s, m);
    GroupStarts(input, pairs, i, s.n);
    assert Round(s, input, basic) == NextValue(swept);
  }

  lemma GroupStarts(input: Text, pairs: seq<Pair>, i: nat, n: nat)
    requires Plan(input, pairs) && SplitAt(pairs, i, n) && i < |pairs|
    ensures GroupAt(pairs, i, pairs[i].value, 0) && SplitAt(pairs, i, pairs[i].value)
  {
    forall k | i < k < |pairs| ensures pairs[k].value >= pairs[i].value { assert Less(pairs[i], pairs[k]); }
  }

  /** The next pair is where the sweep emits next, and by how much the delta grows until then. */
  lemma NextEmission(input: Text, pairs: seq<Pair>, i: nat, s: Coder, q: nat, swept: Coder)
      returns (c: nat, delta: nat, s': Coder)
    requires InGroup(input, pairs, i, s, q, swept) && i < |pairs| && pairs[i].value == s.n
    ensures q <= pairs[i].position < |input| && s.handled < |input|
    ensures CountBelow(input[..q], s.n) <= c <= |input|
    ensures c == CountBelow(input[..pairs[i].position], s.n) == CountBelow(input[..pairs[i].position + 1], s.n)
    ensures delta == s.delta + c - CountBelow(input[..q], s.n) == PairDelta(input, pairs, i)
    ensures s' == Emit(s.(delta := delta), CountBelow(input, INITIAL_N))
    ensures s'.trace == s.trace + [Step(delta, s.bias)]
    ensures InGroup(input, pairs, i + 1, s', pairs[i].position + 1, swept)
  {
    hide Sweep, CountBelow, Plan, GroupAt, Tracks, Landed, PairDelta;
    var basic := CountBelow(input, INITIAL_N);
    var p := pairs[i].position;
    PlanLength(input, pairs);
    GroupStep(input, pairs, i, s.n, q);
    NoneBetween(input, pairs, i, s.n, q, p);
    Skip(s, input, q, p, basic);
    SkipTracks(s, input, q, p);
    CountStep(input, p, s.n);
    c := CountBelow(input[..p], s.n);
    delta := s.delta + c - CountBelow(input[..q], s.n);
    var s1 := s.(delta := delta);
    s' := Emit(s1, basic);
    Lands(input, pairs, i, s1, basic);
    VisitTracks(input, s1, p, basic);
    SweepTurn(s1, input, p, basic);
  }

  lemma PlanLength(input: Text, pairs: seq<Pair>)
    requires Plan(input, pairs)
    ensures |pairs| == |input| - CountBelow(input, INITIAL_N)
    ensures forall k | 0 <= k < |pairs| :: pairs[k].position <= |input|
  {
  }

  lemma SweepTurn(s: Coder, input: Text, p: nat, basic: nat)
    requires p < |input| && input[p] == s.n
    ensures Sweep(s, input, p, basic) == Sweep(Emit(s, basic), input, p + 1, basic)
  {
    hide Emit;
  }

  /** After the last occurrence, the sweep only counts. */
  lemma GroupFinishes(input: Text, pairs: seq<Pair>, i: nat, s: Coder, q: nat, swept: Coder)
    requires InGroup(input, pairs, i, s, q, swept) && Leads(input, swept) && s.delta == 0
    requires i < |pairs| ==> pairs[i].value != s.n
    ensures CountBelow(input[..q], s.n) <= CountBelow(input, s.n)
    ensures AtRound(input, pairs, i,
                    s.(delta := CountBelow(input, s.n) - CountBelow(input[..q], s.n) + 1, n := s.n + 1))
  {
    hide Sweep, CountBelow, Plan, GroupAt, SplitAt, Rounds, Run, Tracks, Landed;
    var basic := CountBelow(input, INITIAL_N);
    GroupEnd(input, pairs, i, s.n, q);
    NoneBetween(input, pairs, i, s.n, q, |input|);
    Skip(s, input, q, |input|, basic);
    SkipTracks(s, input, q, |input|);
    assert input[..|input|] == input;
    var s1 := s.(delta := CountBelow(input, s.n) - CountBelow(input[..q], s.n));
    SweepDone(s1, input, basic);
    NextTracks(input, s1);
  }

  lemma SweepDone(s: Coder, input: Text, basic: nat)
    ensures Sweep(s, input, |input|, basic) == s
  {
  }

  /** The textbook is done when there are no pairs left. */
  lemma RoundsEnd(input: Text, pairs: seq<Pair>, s: Coder)
    requires AtRound(input, pairs, |pairs|, s)
    ensures Run(input) == s
  {
    NothingLeft(input, pairs, s.n);
  }

  /** The decoder stays behind the fast encoder's pending delta, too. */
  lemma PendingBound(input: Text, pairs: seq<Pair>, i: nat, s: Coder)
    requires AtRound(input, pairs, i, s)
    ensures s.delta < (s.n + 1) * (s.handled + 1)
  {
    DeltaBound(input, s, 0);
  }

  // ---------- the whole walk ----------

  lemma {:induction false} WalkGroup(input: Text, pairs: seq<Pair>, i: nat, s: Coder, q: nat, swept: Coder)
      returns (i': nat, s': Coder)
    requires InGroup(input, pairs, i, s, q, swept) && Leads(input, swept)
    requires i < |pairs| && pairs[i].value == s.n
    ensures i < i' <= |pairs| && AtRound(input, pairs, i', s')
    decreases |pairs| - i
  {
    hide InGroup, AtRound, Leads;
    var c, delta, e := NextEmission(input, pairs, i, s, q, swept);
    if i + 1 < |pairs| && pairs[i + 1].value == s.n {
      i', s' := WalkGroup(input, pairs, i + 1, e, pairs[i].position + 1, swept);
    } else {
      GroupFinishes(input, pairs, i + 1, e, pairs[i].position + 1, swept);
      i' := i + 1;
      s' := e.(delta := CountBelow(input, e.n) - CountBelow(input[..pairs[i].position + 1], e.n) + 1, n := e.n + 1);
    }
  }

  lemma {:induction false} WalkRounds(input: Text, pairs: seq<Pair>, i: nat, s: Coder)
    requires AtRound(input, pairs, i, s) && i <= |pairs|
    ensures Landed(input, pairs, |pairs|, Run(input).trace)
    decreases |pairs| - i
  {
    hide InGroup, Leads, Landed, Tracks, Rounds, Run;
    if i < |pairs| {
      var swept := RoundStarts(input, pairs, i, s);
      var i', s' := WalkGroup(input, pairs, i, Advance(s, pairs[i].value), 0, swept);
      WalkRounds(input, pairs, i', s');
    } else {
      RoundsEnd(input, pairs, s);
    }
  }

  /** The textbook emits one delta for each pair in sorted order, and this is the delta. */
  lemma ClosedForm(input: Text, pairs: seq<Pair>)
    requires Plan(input, pairs)
    ensures InInput(input, pairs) && |Run(input).trace| == |pairs|
    ensures forall k: nat | k < |pairs| :: Run(input).trace[k].delta == PairDelta(input, pairs, k)
  {
    hide AtRound, Run, PairDelta, Plan;
    AtStart(input, pairs);
    WalkRounds(input, pairs, 0, Start(input));
  }
}
