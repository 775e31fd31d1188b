/** The encoder that replaces the rescans by a sort and a Fenwick tree. */
module Punyenc {
  import opened Wrappers
  import opened Arithmetic
  import opened Bootstring
  import opened Pairs
  import opened Walk
  import Decoder
  import Fenwick
  import RoundTrip
  import Textbook

  /** The machine integers that the encoder computes with. */
  newtype u64 = x: int | 0 <= x < 0x1_0000_0000_0000_0000

  const LIMIT: nat := 0x1_0000_0000_0000_0000

  function Quot(a: u64, b: u64): (q: u64)
    requires b > 0
    ensures q as nat == Div(a as nat, b as nat)
  {
    Share(a as nat, b as nat);
    a / b
  }

  function Rem(a: u64, b: u64): (r: u64)
    requires b > 0
    ensures r as nat == Mod(a as nat, b as nat) && r < b
  {
    a % b
  }

  function CheckedAdd(a: u64, b: u64): (r: Option<u64>)
    ensures r.Some? <==> a as nat + b as nat < LIMIT
    ensures r.Some? ==> r.value as nat == a as nat + b as nat
  {
    if a as nat + b as nat < LIMIT then Some(a + b) else None
  }

  function CheckedMul(a: u64, b: u64): (r: Option<u64>)
    ensures r.Some? <==> a as nat * b as nat < LIMIT
    ensures r.Some? ==> r.value as nat == a as nat * b as nat
  {
    if a as nat * b as nat < LIMIT then Some((a as nat * b as nat) as u64) else None
  }

  /** `delta + gap * size`; it fails when the product or the sum overflows. */
  function CheckedAdvance(delta: u64, gap: u64, size: u64): (r: Option<u64>)
    ensures r.Some? <==> Textbook.Jump(delta as nat, gap as nat, size as nat) < LIMIT
    ensures r.Some? ==> r.value as nat == Textbook.Jump(delta as nat, gap as nat, size as nat)
  {
    var product :- CheckedMul(gap, size);
    CheckedAdd(delta, product)
  }

  /** Bias adaptation never overflows. */
  method Adapt(delta: u64, numPoints: u64, firstTime: bool) returns (bias: u64)
    requires numPoints > 0
    ensures bias as nat == Bootstring.Adapt(delta as nat, numPoints as nat, firstTime)
  {
    hide Shrink, Div, Quot;
    var d: u64 := if firstTime then delta / 700 else delta / 2;
    Share(d as nat, numPoints as nat);
    d := d + Quot(d, numPoints);
    ghost var goal := Shrink(d as nat, 0);
    var k: u64 := 0;
    while d > ((36 - 1) * 26) / 2
      invariant Shrink(d as nat, k as nat) == goal
      invariant k == 0 || k as nat + d as nat <= 0x7FFF_FFFF_FFFF_FFFF
    {
      ShrinkStep(d as nat, k as nat);
      d := d / (36 - 1);
      k := k + 36;
    }
    ShrinkEnd(d as nat, k as nat);
    bias := k + Quot((36 - 1 + 1) * d, d + 38);
  }

  lemma ShrinkStep(d: nat, k: nat)
    requires d > 455
    ensures Shrink(d, k) == Shrink(d / 35, k + 36)
  {
  }

  lemma ShrinkEnd(d: nat, k: nat)
    requires d <= 455
    ensures Shrink(d, k) == k + Div(36 * d, d + 38) && Div(36 * d, d + 38) <= 36
  {
    Fraction(36 * d, d + 38, 36);
  }

  function LowDigit(q: u64, t: u64): (d: Digit)
    requires 1 <= t <= 26 && t <= q
    ensures d == Low(q as nat, t as nat)
  {
    (t + Rem(q - t, 36 - t)) as nat
  }

  function HighDigits(q: u64, t: u64): (rest: u64)
    requires 1 <= t <= 26 && t <= q
    ensures rest as nat == High(q as nat, t as nat) && rest < q
  {
    Quot(q - t, 36 - t)
  }

  /** Appending an integer never overflows, and appends its spelling. */
  method PushDelta(output: Text, delta: u64, bias: u64) returns (text: Text)
    requires bias as nat + TMAX < LIMIT
    ensures text == output + Chars(Vlq(delta as nat, BASE, bias as nat))
  {
    hide Low, High;
    text := output;
    var q := delta;
    var k: u64 := 36;
    ghost var goal := output + Chars(Vlq(delta as nat, BASE, bias as nat));
    var t: u64 := if k <= bias then 1 else if k >= bias + 26 then 26 else k - bias;
    while q >= t
      invariant t as nat == Threshold(k as nat, bias as nat)
      invariant text + Chars(Vlq(q as nat, k as nat, bias as nat)) == goal
      invariant || k as nat + 36 * DecimalLength(q as nat) <= 36 * (DecimalLength(delta as nat) + 1)
                || (q == 0 && k as nat <= 36 * (DecimalLength(delta as nat) + 2))
      decreases q
    {
      VlqStep(text, q as nat, k as nat, bias as nat);
      DecimalLengthSmall(delta as nat);
      DecimalLengthStep(q as nat, t as nat);
      text := text + [DigitToChar(LowDigit(q, t))];
      q := HighDigits(q, t);
      k := k + 36;
      t := if k <= bias then 1 else if k >= bias + 26 then 26 else k - bias;
    }
    VlqEnd(text, q as nat, k as nat, bias as nat);
    text := text + [DigitToChar(q as nat)];
  }

  lemma VlqStep(text: Text, q: nat, k: nat, bias: nat)
    requires q >= Threshold(k, bias)
    ensures var t := Threshold(k, bias);
            text + Chars(Vlq(q, k, bias)) == text + [DigitToChar(Low(q, t))] + Chars(Vlq(High(q, t), k + BASE, bias))
  {
    hide Low, High;
    var t := Threshold(k, bias);
    assert Chars(Vlq(q, k, bias)) == [DigitToChar(Low(q, t))] + Chars(Vlq(High(q, t), k + BASE, bias));
  }

  lemma VlqEnd(text: Text, q: nat, k: nat, bias: nat)
    requires q < Threshold(k, bias)
    ensures text + Chars(Vlq(q, k, bias)) == text + [DigitToChar(q)]
  {
    assert Chars(Vlq(q, k, bias)) == [DigitToChar(q)];
  }

  lemma DecimalLengthStep(q: nat, t: nat)
    requires TMIN <= t <= TMAX && q >= t
    ensures High(q, t) == 0 || DecimalLength(High(q, t)) + 1 <= DecimalLength(q)
  {
    hide High;
    if q >= 10 { DecimalLengthMonotone(High(q, t), q / 10); } else { assert High(q, t) == 0; }
  }

  lemma {:induction false} DecimalLengthSmall(q: nat)
    ensures DecimalLength(q) <= 2 + q / 100
  {
    if q >= 100 { DecimalLengthSmall(q / 10); }
  }

  // ---------- the Fenwick tree stands in for the rescan ----------

  /** 1 at the positions whose code point is below `m`. */
  function Indicator(input: Text, m: nat): (ones: seq<nat>)
    ensures |ones| == |input|
  {
    seq(|input|, i requires 0 <= i < |input| => if input[i] < m then 1 else 0)
  }

  /** What the tree answers is what a scan of the positions to the left would count. */
  lemma {:induction false} IndexAgrees(input: Text, m: nat, p: nat)
    requires p <= |input|
    ensures Fenwick.Sum(Indicator(input, m), 0, p) == Textbook.CountBelow(input[..p], m)
    decreases p
  {
    if p > 0 {
      IndexAgrees(input, m, p - 1);
      Textbook.CountStep(input, p - 1, m);
    } else {
      assert input[..0] == [];
    }
  }

  // ---------- overflow ----------

  /** The state fits into the encoder's variables, and everything emitted did. */
  ghost predicate Fits(s: Textbook.Coder) {
    s.bias + TMAX < LIMIT && forall k: nat | k < |s.trace| :: s.trace[k].delta < LIMIT
  }

  lemma EmissionFits(s: Textbook.Coder, delta: nat, basic: nat)
    requires Fits(s) && delta < LIMIT
    ensures s.bias + TMAX < LIMIT && Fits(Textbook.Emit(s.(delta := delta), basic))
  {
    hide Bootstring.Adapt, Vlq, Chars;
    AdaptBound(delta, s.handled + 1, s.handled == basic);
  }

  /** Some pair has a delta that does not fit. */
  ghost predicate Overflows(input: Text) {
    var pairs := Sort(NonBasic(input));
    InInput(input, pairs) && exists k: nat :: k < |pairs| && PairDelta(input, pairs, k) >= LIMIT
  }

  /** A delta does not fit exactly if the textbook emits one that does not. */
  lemma OverflowsAsTextbook(input: Text)
    ensures Overflows(input) <==>
            exists k: nat :: k < |Textbook.Run(input).trace| && Textbook.Run(input).trace[k].delta >= LIMIT
  {
    hide Textbook.Run, NonBasic, Sort, PairDelta;
    var pairs, trace := Sort(NonBasic(input)), Textbook.Run(input).trace;
    SortedPlan(input);
    ClosedForm(input, pairs);
    if k: nat :| k < |trace| && trace[k].delta >= LIMIT { assert PairDelta(input, pairs, k) >= LIMIT; }
    if k: nat :| k < |pairs| && PairDelta(input, pairs, k) >= LIMIT { assert trace[k].delta >= LIMIT; }
  }

  lemma TooBig(input: Text, pairs: seq<Pair>, i: nat)
    requires pairs == Sort(NonBasic(input)) && Plan(input, pairs) && i < |pairs| && PairDelta(input, pairs, i) >= LIMIT
    ensures Overflows(input)
  {
    hide NonBasic, Sort, PairDelta;
    assert PairDelta(input, pairs, i) >= LIMIT;
  }

  lemma AllFit(input: Text, s: Textbook.Coder)
    requires Textbook.Run(input) == s && Fits(s)
    ensures !Overflows(input)
  {
    hide Overflows, Textbook.Run;
    OverflowsAsTextbook(input);
  }

  /** Every delta of an input of up to 2^43 code points fits. */
  lemma NeverOverflows(input: Text)
    requires |input| <= 0x800_0000_0000
    ensures !Overflows(input)
  {
    hide Overflows, Textbook.Run;
    RoundTrip.DeltasBounded(input);
    OverflowsAsTextbook(input);
  }

  /** 2^44 letters and the last code point: a text that overflows. */
  function Overflowing(): Text {
    seq(0x1000_0000_0000, _ => 97) + [0x10FFFF]
  }

  lemma SomeInputOverflows()
    ensures |Overflowing()| < 0x8000_0000_0000_0000 && Overflows(Overflowing())
  {
    var n: nat := 0x1000_0000_0000;
    var input := Overflowing();
    assert input[..n] == seq(n, _ => 97);
    Textbook.CountAll(input[..n], INITIAL_N);
    Textbook.CountAll(input[..n], 0x110000);
    assert NonBasic(input[..n]) == [];
    assert NonBasic(input) == [Pair(0x10FFFF, n)];
    assert Sort(NonBasic(input)) == [Pair(0x10FFFF, n)];
    assert PairDelta(input, [Pair(0x10FFFF, n)], 0) == (0x10FFFF - 128) * (n + 1) + n;
  }

  /** The position of every pair of the group counts as placed from now on. */
  ghost predicate Marked(input: Text, pairs: seq<Pair>, start: nat, j: nat, m: nat, ones: seq<nat>) {
    && start <= j <= |pairs| && |ones| == |input|
    && forall p: nat | p < |input| ::
         ones[p] == if input[p] < m || exists k :: start <= k < j && pairs[k].position == p then 1 else 0
  }

  lemma MarkStep(input: Text, pairs: seq<Pair>, start: nat, j: nat, m: nat, ones: seq<nat>)
    requires Plan(input, pairs) && Marked(input, pairs, start, j, m, ones) && j < |pairs| && pairs[j].value == m
    ensures pairs[j].position < |input| && ones[pairs[j].position] == 0
    ensures Marked(input, pairs, start, j + 1, m, ones[pairs[j].position := 1])
  {
    forall k | start <= k < j ensures pairs[k].position != pairs[j].position { assert Less(pairs[k], pairs[j]); }
  }

  lemma AllMarked(input: Text, pairs: seq<Pair>, start: nat, i: nat, m: nat, ones: seq<nat>)
    requires Plan(input, pairs) && SplitAt(pairs, start, m) && SplitAt(pairs, i, m + 1) && m >= INITIAL_N
    requires Marked(input, pairs, start, i, m, ones)
    ensures ones == Indicator(input, m + 1)
  {
    forall k | start <= k < i ensures input[pairs[k].position] == m { assert m <= pairs[k].value < m + 1; }
    forall p: nat | p < |input| ensures ones[p] == if input[p] < m + 1 then 1 else 0 {
      if input[p] == m {
        assert Pair(m, p) in pairs;
        var k :| 0 <= k < |pairs| && pairs[k] == Pair(m, p);
      }
    }
  }

  // ---------- the encoder ----------

  /** The basic code points are copied, and counted. */
  method CopyBasic(input: Text) returns (output: Text, basicCount: u64)
    requires |input| < 0x8000_0000_0000_0000
    ensures output == Textbook.Below(input, INITIAL_N) && basicCount as nat == Textbook.CountBelow(input, INITIAL_N)
  {
    output, basicCount := [], 0;
    for p := 0 to |input|
      invariant output == Textbook.Below(input[..p], INITIAL_N)
      invariant basicCount as nat == Textbook.CountBelow(input[..p], INITIAL_N)
    {
      assert input[..p + 1][..p] == input[..p];
      if input[p] < 128 {
        output := output + [input[p]];
        basicCount := basicCount + 1;
      }
    }
    assert input[..|input|] == input;
  }

  // ---------- visits to the tree ----------

  /** How many nodes `k` queries or updates may visit. */
  function Paths(size: nat, k: nat): nat {
    k * Fenwick.Bits(size)
  }

  lemma OneMore(size: nat, k: nat, end: nat)
    requires k < end
    ensures Paths(size, k) + Fenwick.Bits(size) == Paths(size, k + 1) <= Paths(size, end)
  {
    hide Fenwick.Bits;
    Wrap(k, Fenwick.Bits(size));
    Product(k + 1, end, Fenwick.Bits(size), Fenwick.Bits(size));
  }

  lemma FewerPaths(size: nat, k: nat, end: nat)
    requires k <= end
    ensures Paths(size, k) <= Paths(size, end)
  {
    Product(k, end, Fenwick.Bits(size), Fenwick.Bits(size));
  }

  /** The nodes that the build, and one query and one update for each of `i` pairs, may visit. */
  function Budget(size: nat, i: nat): nat {
    size + 2 * Paths(size, i)
  }

  lemma GroupVisits(size: nat, start: nat, i: nat, before: nat, looks: nat, marks: nat)
    requires start <= i && before <= Budget(size, start)
    requires looks <= Paths(size, i - start) && marks <= Paths(size, i - start)
    ensures before + looks + marks <= Budget(size, i)
  {
    hide Fenwick.Bits;
    Distribute(i, start, Fenwick.Bits(size));
  }

  lemma AllVisits(size: nat, i: nat, visits: nat)
    requires i <= size && visits <= Budget(size, i)
    ensures visits <= size * (2 * Fenwick.Bits(size) + 1)
  {
    hide Fenwick.Bits;
    var bits := Fenwick.Bits(size);
    Product(i, size, bits, bits);
    calc {
      size * (2 * bits + 1);
      2 * (size * bits) + size;
    }
  }

  lemma NoVisits(size: nat)
    ensures Paths(size, 0) == 0 && Budget(size, 0) == size
  {
  }

  // ---------- the groups ----------

  /** The group of `m` counts as placed for every higher value. */
  method PlaceGroup(placed: Fenwick.Tree, ghost input: Text, pairs: seq<Pair>, start: nat, i: nat, ghost m: nat)
      returns (ghost visits: nat)
    requires Plan(input, pairs) && SplitAt(pairs, start, m) && SplitAt(pairs, i, m + 1) && start <= i && m >= INITIAL_N
    requires placed.Valid() && placed.inner.Length == |input| && placed.counts == Indicator(input, m)
    modifies placed`counts, placed.inner
    ensures placed.Valid() && placed.counts == Indicator(input, m + 1)
    ensures visits <= Paths(|input|, i - start)
  {
    hide Fenwick.Covers, Plan, Marked, Fenwick.Bits, Paths;
    NoVisits(|input|);
    MarkStart(input, pairs, start, m);
    visits := 0;
    for j := start to i
      invariant placed.Valid() && Marked(input, pairs, start, j, m, placed.counts)
      invariant visits <= Paths(|input|, j - start)
    {
      MarkStep(input, pairs, start, j, m, placed.counts);
      ghost var more := placed.AddAt(pairs[j].position, 1);
      OneMore(|input|, j - start, j - start + 1);
      visits := visits + more;
    }
    AllMarked(input, pairs, start, i, m, placed.counts);
  }

  lemma MarkStart(input: Text, pairs: seq<Pair>, start: nat, m: nat)
    requires start <= |pairs|
    ensures Marked(input, pairs, start, start, m, Indicator(input, m))
  {
  }

  /** At the end of a group, `pairs` is split on both of its sides. */
  lemma GroupSplits(input: Text, pairs: seq<Pair>, i: nat, s: Textbook.Coder)
    requires AtRound(input, pairs, i, s)
    ensures Plan(input, pairs) && SplitAt(pairs, i, s.n) && s.delta <= |input| + 1 && INITIAL_N <= s.n <= 0x110000
  {
  }

  /** The next occurrence: what the tree answers there, and the textbook's state once its delta is emitted. */
  lemma PairOpens(input: Text, pairs: seq<Pair>, i: nat, s: Textbook.Coder, q: nat, swept: Textbook.Coder)
      returns (e: Textbook.Coder)
    requires InGroup(input, pairs, i, s, q, swept) && Fits(s) && i < |pairs| && pairs[i].value == s.n
    requires pairs == Sort(NonBasic(input)) && Plan(input, pairs)
    ensures q <= pairs[i].position < |input| && s.handled < |input| && s.bias + TMAX < LIMIT
    ensures var basic := Textbook.CountBelow(input, INITIAL_N);
            var before := Textbook.CountBelow(input[..q], s.n);
            var count := Fenwick.Sum(Indicator(input, s.n), 0, pairs[i].position);
            && before <= count == Textbook.CountBelow(input[..pairs[i].position + 1], s.n) <= |input|
            && var delta := s.delta + count - before;
               && (delta >= LIMIT ==> Overflows(input))
               && (delta < LIMIT ==> Fits(e))
               && e == Textbook.Coder(s.n, 0, Bootstring.Adapt(delta, s.handled + 1, s.handled == basic), s.handled + 1,
                                      s.output + Chars(Vlq(delta, BASE, s.bias)),
                                      s.trace + [Textbook.Step(delta, s.bias)])
    ensures InGroup(input, pairs, i + 1, e, pairs[i].position + 1, swept)
  {
    hide InGroup, Overflows, Plan, Fits, Indicator, Fenwick.Sum, PairDelta, NonBasic, Sort;
    hide Textbook.CountBelow, Bootstring.Adapt, Vlq, Chars;
    var c, delta;
    c, delta, e := NextEmission(input, pairs, i, s, q, swept);
    IndexAgrees(input, s.n, pairs[i].position);
    if delta >= LIMIT { TooBig(input, pairs, i); }
    FitsBias(s);
    if delta < LIMIT { EmissionFits(s, delta, Textbook.CountBelow(input, INITIAL_N)); }
  }

  lemma FitsBias(s: Textbook.Coder)
    requires Fits(s)
    ensures s.bias + TMAX < LIMIT
  {
  }

  /** One occurrence of `m`: its delta is pushed, and the bias adapts; it stops when the delta does not fit. */
  method EncodePair(placed: Fenwick.Tree, ghost input: Text, pairs: seq<Pair>, i: nat, m: u64, delta0: u64, bias0: u64,
                    handled0: u64, basicCount: u64, prevC0: u64, output0: Text, ghost emitted0: seq<Textbook.Step>,
                    ghost s: Textbook.Coder, ghost q: nat, ghost swept: Textbook.Coder)
      returns (fits: bool, output: Text, bias: u64, handled: u64, prevC: u64,
               ghost emitted: seq<Textbook.Step>, ghost visits: nat, ghost e: Textbook.Coder)
    requires |input| < 0x8000_0000_0000_0000 && i < |pairs| && pairs[i].value as u64 == m
    requires pairs == Sort(NonBasic(input)) && Plan(input, pairs)
    requires InGroup(input, pairs, i, s, q, swept) && Fits(s)
    requires s == Textbook.Coder(m as nat, delta0 as nat, bias0 as nat, handled0 as nat, output0, emitted0)
    requires placed.Valid() && placed.inner.Length == |input| && placed.counts == Indicator(input, m as nat)
    requires basicCount as nat == Textbook.CountBelow(input, INITIAL_N)
    requires q <= |input| && prevC0 as nat == Textbook.CountBelow(input[..q], m as nat)
    ensures !fits ==> Overflows(input)
    ensures fits ==>
              && pairs[i].position < |input|
              && InGroup(input, pairs, i + 1, e, pairs[i].position + 1, swept) && Fits(e)
              && e == Textbook.Coder(m as nat, 0, bias as nat, handled as nat, output, emitted)
              && prevC as nat == Textbook.CountBelow(input[..pairs[i].position + 1], m as nat)
    ensures visits <= Fenwick.Bits(|input|)
  {
    hide InGroup, Overflows, Plan, Fits, Indicator, NonBasic, Sort;
    hide Fenwick.Sum, Fenwick.Covers, Fenwick.Bits, Fenwick.Ones;
    hide Textbook.CountBelow, Textbook.Emit, Bootstring.Adapt, Vlq, Chars;
    output, bias, handled, prevC, emitted := output0, bias0, handled0, prevC0, emitted0;
    var p := pairs[i].position;
    e := PairOpens(input, pairs, i, s, q, swept);
    var count;
    count, visits := placed.PrefixSum(p, 0);
    var sum := CheckedAdd(delta0, count as u64 - prevC);
    fits := sum.Some?;
    if !fits { return; }
    var delta := sum.value;
    output := PushDelta(output, delta, bias);
    emitted := emitted + [Textbook.Step(delta as nat, bias as nat)];
    bias := Adapt(delta, handled + 1, handled == basicCount);
    prevC := count as u64;
    handled := handled + 1;
  }

  /**
   * The inner loop of the encoder: every occurrence of `m`, from left to right. It stops when a
   * delta does not fit. `emitted` records each delta that is pushed, with its bias, and `visits`
   * counts the nodes of the tree that are looked at.
   */
  method EncodeGroup(placed: Fenwick.Tree, ghost input: Text, pairs: seq<Pair>, start: nat, m: u64,
                     delta0: u64, bias0: u64, handled0: u64, basicCount: u64, output0: Text,
                     ghost emitted0: seq<Textbook.Step>, ghost s0: Textbook.Coder, ghost swept: Textbook.Coder)
      returns (fits: bool, i: nat, output: Text, bias: u64, handled: u64, prevC: u64,
               ghost emitted: seq<Textbook.Step>, ghost visits: nat, ghost s: Textbook.Coder, ghost q: nat)
    requires |input| < 0x8000_0000_0000_0000 && start < |pairs| && pairs[start].value as u64 == m
    requires pairs == Sort(NonBasic(input)) && Plan(input, pairs)
    requires InGroup(input, pairs, start, s0, 0, swept) && Leads(input, swept) && Fits(s0)
    requires s0 == Textbook.Coder(m as nat, delta0 as nat, bias0 as nat, handled0 as nat, output0, emitted0)
    requires placed.Valid() && placed.inner.Length == |input| && placed.counts == Indicator(input, m as nat)
    requires basicCount as nat == Textbook.CountBelow(input, INITIAL_N)
    ensures !fits ==> Overflows(input)
    ensures fits ==>
              && start < i <= |pairs| && (i < |pairs| ==> pairs[i].value as u64 != m)
              && InGroup(input, pairs, i, s, q, swept) && Fits(s)
              && s == Textbook.Coder(m as nat, 0, bias as nat, handled as nat, output, emitted)
              && q <= |input| && prevC as nat == Textbook.CountBelow(input[..q], m as nat)
    ensures visits <= Paths(|input|, |pairs| - start) && (fits ==> visits <= Paths(|input|, i - start))
  {
    hide InGroup, Leads, Overflows, Plan, GroupAt, Fits, Indicator, Fenwick.Sum, Fenwick.Covers, PairDelta, NonBasic,
         Sort, Fenwick.Bits, Fenwick.Ones, Paths, Budget;
    hide CheckedAdd, Fenwick.Tree.Valid, SplitAt, Textbook.Jump;
    NoVisits(|input|);
    FewerPaths(|input|, 0, |pairs| - start);
    hide Textbook.Sweep, Textbook.Rounds, Textbook.Run, Textbook.CountBelow, Textbook.Emit;
    hide Bootstring.Adapt, Vlq, Chars;
    fits, i, output, bias, handled, prevC := true, start, output0, bias0, handled0, 0;
    emitted, visits, s, q := emitted0, 0, s0, 0;
    var delta := delta0;
    assert input[..0] == [] && Textbook.CountBelow([], m as nat) == 0 by { NothingBelow(m as nat); }
    while i < |pairs| && pairs[i].value as u64 == m
      invariant fits && start <= i <= |pairs| && InGroup(input, pairs, i, s, q, swept) && Fits(s)
      invariant s == Textbook.Coder(m as nat, delta as nat, bias as nat, handled as nat, output, emitted)
      invariant q <= |input| && prevC as nat == Textbook.CountBelow(input[..q], m as nat)
      invariant i > start ==> delta == 0
      invariant visits <= Paths(|input|, i - start) <= Paths(|input|, |pairs| - start)
      decreases |pairs| - i
    {
      ghost var looks;
      OneMore(|input|, i - start, |pairs| - start);
      fits, output, bias, handled, prevC, emitted, looks, s := EncodePair(
        placed, input, pairs, i, m, delta, bias, handled, basicCount, prevC, output, emitted, s, q, swept);
      visits := visits + looks;
      if !fits { return; }
      delta := 0;
      q := pairs[i].position + 1;
      i := i + 1;
    }
  }

  lemma NothingBelow(m: nat)
    ensures Textbook.CountBelow([], m) == 0
  {
  }

  lemma SameIndicator(input: Text, n: nat, m: nat)
    requires forall p | 0 <= p < |input| :: input[p] < n <==> input[p] < m
    ensures Indicator(input, n) == Indicator(input, m)
  {
  }

  lemma FitsSame(s: Textbook.Coder, s': Textbook.Coder)
    requires Fits(s) && s'.bias == s.bias && s'.trace == s.trace
    ensures Fits(s')
  {
  }

  /** A round begins as the textbook's does, unless the next delta is already too big. */
  lemma RoundOpens(input: Text, pairs: seq<Pair>, i: nat, s: Textbook.Coder)
      returns (swept: Textbook.Coder, s1: Textbook.Coder)
    requires AtRound(input, pairs, i, s) && Fits(s) && i < |pairs| && pairs == Sort(NonBasic(input))
    ensures INITIAL_N <= s.n <= pairs[i].value && Plan(input, pairs) && SplitAt(pairs, i, pairs[i].value)
    ensures s.handled == Textbook.CountBelow(input, pairs[i].value) < |input|
    ensures s1 == s.(n := pairs[i].value, delta := Textbook.Jump(s.delta, pairs[i].value - s.n, s.handled + 1))
    ensures InGroup(input, pairs, i, s1, 0, swept) && Leads(input, swept) && Fits(s1)
    ensures s1.delta >= LIMIT ==> Overflows(input)
    ensures Indicator(input, s.n) == Indicator(input, pairs[i].value)
  {
    hide AtRound, InGroup, Leads, Overflows, Plan, SplitAt, Fits, Indicator, PairDelta, NonBasic, Sort;
    hide Textbook.CountBelow, Textbook.Emit, Textbook.Jump;
    swept := RoundStarts(input, pairs, i, s);
    GroupSplits(input, pairs, i, s);
    s1 := Textbook.Advance(s, pairs[i].value);
    FitsSame(s, s1);
    SameIndicator(input, s.n, pairs[i].value);
    var c, grown, e := NextEmission(input, pairs, i, s1, 0, swept);
    if s1.delta >= LIMIT {
      assert input[..0] == [];
      NothingBelow(s1.n);
      TooBig(input, pairs, i);
    }
  }

  /** A round ends as the textbook's does. */
  lemma GroupCloses(input: Text, pairs: seq<Pair>, i: nat, s: Textbook.Coder, q: nat, swept: Textbook.Coder,
                    below: nat, prevC: nat) returns (s': Textbook.Coder)
    requires InGroup(input, pairs, i, s, q, swept) && Leads(input, swept) && s.delta == 0 && Fits(s)
    requires i < |pairs| ==> pairs[i].value != s.n
    requires q <= |input| < 0x8000_0000_0000_0000
    requires below == Textbook.CountBelow(input, s.n) && prevC == Textbook.CountBelow(input[..q], s.n)
    ensures prevC <= below && below - prevC + 1 < LIMIT && s.n + 1 <= 0x110000
    ensures s' == s.(delta := below - prevC + 1, n := s.n + 1)
    ensures AtRound(input, pairs, i, s') && Fits(s') && Plan(input, pairs) && SplitAt(pairs, i, s'.n)
  {
    hide AtRound, InGroup, Leads, Plan, SplitAt, Fits, Textbook.CountBelow;
    GroupFinishes(input, pairs, i, s, q, swept);
    s' := s.(delta := below - prevC + 1, n := s.n + 1);
    FitsSame(s, s');
    GroupSplits(input, pairs, i, s');
  }

  /**
   * The encoder pushes the deltas that the textbook emits, under the same biases, and writes the
   * same output, which the decoder turns into the input. It fails by an overflow if and only if
   * some pair has a delta that does not fit, which never happens for up to 2^43 code points. The
   * number of tree nodes it looks at is of the order of `n log n`.
   */
  method Encode(input: Text) returns (r: Option<Text>, ghost emitted: seq<Textbook.Step>, ghost visits: nat)
    requires |input| < 0x8000_0000_0000_0000
    ensures r.None? <==> Overflows(input)
    ensures |input| <= 0x800_0000_0000 ==> r.Some?
    ensures r.Some? ==> r.value == Textbook.Encode(input) && emitted == Textbook.Run(input).trace
    ensures r.Some? ==> Decoder.Decode(r.value) == Some(input)
    ensures r.Some? ==> RoundTrip.Replay(RoundTrip.Origin(input), emitted).output == input
    ensures r.Some? ==> forall k: nat | k < |emitted| :: emitted[k].delta < 0x110000 * |input|
    ensures visits <= |input| * (2 * Fenwick.Bits(|input|) + 1)
  {
    hide AtRound, InGroup, Leads, Overflows, Plan, SplitAt, GroupAt, Fits, Indicator;
    hide Fenwick.Sum, Fenwick.Covers, Fenwick.Bits, Paths;
    hide Textbook.Emit, CheckedAdd, CheckedMul, CheckedAdvance, PairDelta, NonBasic, Sort, Decoder.Decode;
    hide Textbook.Jump, Textbook.Sweep, Textbook.Rounds, Textbook.Round, Textbook.Run, Textbook.CountBelow;
    hide Bootstring.Adapt, Vlq, Chars, RoundTrip.Replay;
    hide Budget;
    if |input| <= 0x800_0000_0000 { NeverOverflows(input); }
    var output, basicCount := CopyBasic(input);
    if basicCount > 0 { output := output + [DELIMITER]; }
    var pairs := Sort(NonBasic(input));
    emitted, visits := [], 0;
    ghost var s := Textbook.Start(input);
    Begins(input);
    NoVisits(|input|);
    if |pairs| == 0 {
      RoundsEnd(input, pairs, s);
      Delivers(input, s);
      AllVisits(|input|, 0, visits);
      return Some(output), emitted, visits;
    }
    var placed := new Fenwick.Tree.FromIter(Indicator(input, INITIAL_N));
    visits := placed.pushes;
    var n: u64, delta: u64, bias: u64, handled := 128, 0, 72, basicCount;
    var i := 0;
    while i < |pairs|
      invariant i <= |pairs| && AtRound(input, pairs, i, s) && Fits(s)
      invariant s == Textbook.Coder(n as nat, delta as nat, bias as nat, handled as nat, output, emitted)
      invariant placed.Valid() && fresh(placed) && fresh(placed.inner) && placed.inner.Length == |input|
      invariant placed.counts == Indicator(input, s.n)
      invariant visits <= Budget(|input|, i)
      decreases |pairs| - i
    {
      var m: u64 := pairs[i].value as u64;
      ghost var swept, s1 := RoundOpens(input, pairs, i, s);
      var sum := CheckedAdvance(delta, m - n, handled + 1);
      if sum.None? {
        AllVisits(|input|, i, visits);
        return None, emitted, visits;
      }
      delta := sum.value;
      n := m;
      s := s1;
      var placedBelow, start := handled, i;
      var fits, prevC;
      ghost var looks, marks, q;
      fits, i, output, bias, handled, prevC, emitted, looks, s, q :=
        EncodeGroup(placed, input, pairs, start, m, delta, bias, handled, basicCount, output, emitted, s, swept);
      if !fits {
        GroupVisits(|input|, start, |pairs|, visits, looks, 0);
        visits := visits + looks;
        AllVisits(|input|, |pairs|, visits);
        return None, emitted, visits;
      }
      s := GroupCloses(input, pairs, i, s, q, swept, placedBelow as nat, prevC as nat);
      delta := (placedBelow - prevC) + 1;
      n := n + 1;
      marks := PlaceGroup(placed, input, pairs, start, i, m as nat);
      GroupVisits(|input|, start, i, visits, looks, marks);
      visits := visits + looks + marks;
    }
    RoundsEnd(input, pairs, s);
    Delivers(input, s);
    AllVisits(|input|, i, visits);
    return Some(output), emitted, visits;
  }

  lemma Begins(input: Text)
    ensures AtRound(input, Sort(NonBasic(input)), 0, Textbook.Start(input)) && Fits(Textbook.Start(input))
    ensures |Sort(NonBasic(input))| <= |input|
  {
    hide AtRound, Plan;
    SortedPlan(input);
    PlanLength(input, Sort(NonBasic(input)));
    AtStart(input, Sort(NonBasic(input)));
  }

  /** What the textbook's encoder delivers when every delta fits. */
  lemma Delivers(input: Text, s: Textbook.Coder)
    requires Textbook.Run(input) == s && Fits(s)
    ensures !Overflows(input) && s.output == Textbook.Encode(input)
    ensures Decoder.Decode(s.output) == Some(input)
    ensures RoundTrip.Replay(RoundTrip.Origin(input), s.trace).output == input
    ensures forall k: nat | k < |s.trace| :: s.trace[k].delta < 0x110000 * |input|
  {
    hide Textbook.Run, Fits, Overflows, Decoder.Decode, RoundTrip.Replay;
    AllFit(input, s);
    RoundTrip.DecodeEncode(input);
    RoundTrip.DeltasRebuild(input);
    RoundTrip.DeltasBounded(input);
  }
}
