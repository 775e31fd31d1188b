/** Known encodings, which pin the parameters that the encoder and the decoder share. */
module Vectors {
  import opened Bootstring
  import opened Pairs
  import opened RoundTrip
  import opened Textbook
  import opened Walk

  // ---------- the encoder without slices ----------

  /** `CountBelow(input[..p], m)`. */
  function CountTo(input: Text, p: nat, m: nat): nat
    requires p <= |input|
    decreases p
  {
    if p == 0 then 0 else CountTo(input, p - 1, m) + (if input[p - 1] < m then 1 else 0)
  }

  lemma {:induction false} CountToIs(input: Text, p: nat, m: nat)
    requires p <= |input|
    ensures CountTo(input, p, m) == CountBelow(input[..p], m)
  {
    if p > 0 {
      CountToIs(input, p - 1, m);
      CountStep(input, p - 1, m);
    }
  }

  /** The basic code points of `input[..p]`. */
  function BasicTo(input: Text, p: nat): Text
    requires p <= |input|
    decreases p
  {
    if p == 0 then [] else BasicTo(input, p - 1) + (if input[p - 1] < INITIAL_N then [input[p - 1]] else [])
  }

  lemma {:induction false} BasicToIs(input: Text, p: nat)
    requires p <= |input|
    ensures BasicTo(input, p) == Below(input[..p], INITIAL_N)
  {
    if p > 0 {
      BasicToIs(input, p - 1);
      assert input[..p][..p - 1] == input[..p - 1];
    }
  }

  /** The delta of `pair` after `last`, when `handled` code points have been handled. */
  function DeltaAfter(input: Text, last: Pair, pair: Pair, handled: nat): int
    requires last.position <= |input| && pair.position <= |input|
  {
    (pair.value - last.value) * (handled + 1)
    + CountTo(input, pair.position, pair.value + 1) - CountTo(input, last.position, last.value + 1) - 1
  }

  function FirstDelta(input: Text, pair: Pair, handled: nat): int
    requires pair.position <= |input|
  {
    (pair.value - INITIAL_N) * (handled + 1) + CountTo(input, pair.position, pair.value + 1)
  }

  /** `deltas[..k]` belong to `pairs[..k]`. */
  predicate DeltasAre(input: Text, pairs: seq<Pair>, deltas: seq<nat>, basic: nat, k: nat)
    requires k <= |pairs| && k <= |deltas| && InInput(input, pairs)
    decreases k
  {
    k == 0 ||
    (&& DeltasAre(input, pairs, deltas, basic, k - 1)
     && deltas[k - 1] == if k == 1 then FirstDelta(input, pairs[0], basic)
                         else DeltaAfter(input, pairs[k - 2], pairs[k - 1], basic + k - 1))
  }

  lemma {:induction false} DeltaIs(input: Text, pairs: seq<Pair>, deltas: seq<nat>, k: nat, l: nat)
    requires k < l <= |pairs| && l <= |deltas| && InInput(input, pairs)
    requires DeltasAre(input, pairs, deltas, CountBelow(input, INITIAL_N), l)
    ensures deltas[k] == PairDelta(input, pairs, k)
  {
    hide CountBelow, CountTo;
    if k + 1 < l {
      DeltaIs(input, pairs, deltas, k, l - 1);
    } else {
      CountToIs(input, pairs[k].position, pairs[k].value + 1);
      if k > 0 { CountToIs(input, pairs[k - 1].position, pairs[k - 1].value + 1); }
    }
  }

  /** `pairs[..k]` are non-basic code points in ascending order. */
  predicate Ascends(input: Text, pairs: seq<Pair>, k: nat)
    requires k <= |pairs|
    decreases k
  {
    k == 0 ||
    (&& Ascends(input, pairs, k - 1) && (k == 1 || Less(pairs[k - 2], pairs[k - 1]))
     && pairs[k - 1].position < |input| && input[pairs[k - 1].position] == pairs[k - 1].value >= INITIAL_N)
  }

  lemma {:induction false} AscendsOrdered(input: Text, pairs: seq<Pair>, k: nat)
    requires k <= |pairs| && Ascends(input, pairs, k)
    ensures Ordered(pairs[..k])
    ensures forall i | 0 <= i < k ::
              pairs[i].position < |input| && input[pairs[i].position] == pairs[i].value >= INITIAL_N
  {
    if k > 0 {
      AscendsOrdered(input, pairs, k - 1);
      forall i, j | 0 <= i < j < k ensures Less(pairs[i], pairs[j]) {
        if j < k - 1 { assert Less(pairs[..k - 1][i], pairs[..k - 1][j]); }
        else if i < k - 2 { assert Less(pairs[..k - 1][i], pairs[..k - 1][k - 2]); }
      }
    }
  }

  /** The non-basic code points of `input[..p]` are all there. */
  predicate Covered(input: Text, pairs: seq<Pair>, p: nat)
    requires p <= |input|
    decreases p
  {
    p == 0 ||
    (Covered(input, pairs, p - 1) && (Basic(input[p - 1]) || Pair(input[p - 1], p - 1) in pairs))
  }

  lemma {:induction false} CoveredAll(input: Text, pairs: seq<Pair>, p: nat)
    requires p <= |input| && Covered(input, pairs, p)
    ensures forall x: nat | x < p && !Basic(input[x]) :: Pair(input[x], x) in pairs
  {
    if p > 0 { CoveredAll(input, pairs, p - 1); }
  }

  /** The deltas up to `k`, each under the bias that the one before it leaves. */
  function SpellAll(deltas: seq<nat>, k: nat, basic: nat): Text
    requires k <= |deltas|
    decreases k
  {
    if k == 0 then []
    else
      SpellAll(deltas, k - 1, basic)
      + Chars(Vlq(deltas[k - 1], BASE, if k == 1 then INITIAL_BIAS else Adapt(deltas[k - 2], basic + k - 1, k == 2)))
  }

  lemma {:induction false} SpellAllIs(trace: seq<Step>, deltas: seq<nat>, k: nat, basic: nat)
    requires k <= |trace| == |deltas|
    requires forall j: nat | j < |trace| :: trace[j].delta == deltas[j] && trace[j].bias == BiasAfter(trace, j, basic)
    ensures SpellAll(deltas, k, basic) == Spell(trace[..k])
  {
    hide Adapt, Vlq, Chars;
    if k > 0 {
      SpellAllIs(trace, deltas, k - 1, basic);
      assert trace[..k][..k - 1] == trace[..k - 1];
    }
  }

  lemma PlanIs(input: Text, pairs: seq<Pair>)
    requires Ascends(input, pairs, |pairs|) && Covered(input, pairs, |input|)
    requires |pairs| + CountTo(input, |input|, INITIAL_N) == |input|
    ensures Plan(input, pairs) && InInput(input, pairs)
  {
    hide CountTo, CountBelow, Ascends, Covered;
    CountToIs(input, |input|, INITIAL_N);
    assert input[..|input|] == input && pairs[..|pairs|] == pairs;
    AscendsOrdered(input, pairs, |pairs|);
    CoveredAll(input, pairs, |input|);
  }

  /** The output, from the non-basic code points in the order of the encoder and their deltas. */
  lemma EncodeIs(input: Text, pairs: seq<Pair>, deltas: seq<nat>, basic: nat)
    requires Ascends(input, pairs, |pairs|) && Covered(input, pairs, |input|) && InInput(input, pairs)
    requires basic == CountTo(input, |input|, INITIAL_N) && |deltas| == |pairs| == |input| - basic
    requires DeltasAre(input, pairs, deltas, basic, |pairs|)
    ensures Encode(input)
            == BasicTo(input, |input|) + (if basic > 0 then [45] else []) + SpellAll(deltas, |deltas|, basic)
  {
    hide Run, Spell, SpellAll, Tracks, Adapt, Vlq, Chars, CountBelow, CountTo, BasicTo, Below, PairDelta, BiasAfter;
    hide DeltasAre, Plan, Ascends, Covered;
    assert input[..|input|] == input;
    CountToIs(input, |input|, INITIAL_N);
    BasicToIs(input, |input|);
    PlanIs(input, pairs);
    var trace := Run(input).trace;
    ClosedForm(input, pairs);
    RunSound(input);
    forall k: nat | k < |pairs| ensures deltas[k] == trace[k].delta { DeltaIs(input, pairs, deltas, k, |pairs|); }
    SpellAllIs(trace, deltas, |deltas|, CountBelow(input, INITIAL_N));
    assert trace[..|trace|] == trace;
  }

  // ---------- known encodings ----------

  /** "öü" is "ndam". */
  lemma Umlauts()
    ensures Encode([246, 252]) == [110, 100, 97, 109]
  {
    hide Encode, SpellAll;
    var input: Text := [246, 252];
    var pairs := [Pair(246, 0), Pair(252, 1)];
    assert Ascends(input, pairs, 2) && Covered(input, pairs, 2);
    assert CountTo(input, 2, 128) == 0 && BasicTo(input, 2) == [];
    assert CountTo(input, 0, 247) == 0 && CountTo(input, 1, 253) == 1;
    assert DeltasAre(input, pairs, [118, 12], 0, 2);
    EncodeIs(input, pairs, [118, 12], 0);
    UmlautsSpelling();
  }

  lemma UmlautsSpelling()
    ensures SpellAll([118, 12], 2, 0) == [110, 100, 97, 109]
  {
    assert Adapt(118, 1, true) == 0;
    assert Chars(Vlq(118, 36, 72)) == [110, 100, 97] && Chars(Vlq(12, 36, 0)) == [109];
  }

  /** "bücher" is "bcher-kva". */
  lemma Books()
    ensures Encode([98, 252, 99, 104, 101, 114]) == [98, 99, 104, 101, 114, 45, 107, 118, 97]
  {
    hide Encode, SpellAll;
    var input: Text := [98, 252, 99, 104, 101, 114];
    var pairs := [Pair(252, 1)];
    assert Ascends(input, pairs, 1) && Covered(input, pairs, 6);
    assert CountTo(input, 6, 128) == 5 && BasicTo(input, 6) == [98, 99, 104, 101, 114];
    assert CountTo(input, 1, 253) == 1;
    assert DeltasAre(input, pairs, [745], 5, 1);
    EncodeIs(input, pairs, [745], 5);
    BooksSpelling();
  }

  lemma BooksSpelling()
    ensures SpellAll([745], 1, 5) == [107, 118, 97]
  {
    assert Chars(Vlq(745, 36, 72)) == [107, 118, 97];
  }

  // ---------- "他们为什么不说中文", from section 7.1 of RFC 3492 ----------

  const CHINESE: Text := [20182, 20204, 20026, 20160, 20040, 19981, 35828, 20013, 25991]

  const CHINESE_PAIRS: seq<Pair> :=
    [Pair(19981, 5), Pair(20013, 7), Pair(20026, 2), Pair(20040, 4), Pair(20160, 3),
     Pair(20182, 0), Pair(20204, 1), Pair(25991, 8), Pair(35828, 6)]

  const CHINESE_DELTAS: seq<nat> := [19853, 64, 37, 56, 599, 130, 154, 46301, 88531]

  /** It is "ihqwcrb4cv8a8dqg056pqjye". */
  lemma Chinese()
    ensures Encode(CHINESE) == [105, 104, 113, 119, 99, 114, 98, 52, 99, 118, 56, 97,
                                56, 100, 113, 103, 48, 53, 54, 112, 113, 106, 121, 101]
  {
    hide Encode, SpellAll, Ascends, Covered, DeltasAre, CountTo;
    ChinesePlan();
    ChineseDeltas();
    EncodeIs(CHINESE, CHINESE_PAIRS, CHINESE_DELTAS, 0);
    ChineseSpelling();
  }

  lemma ChinesePlan()
    ensures Ascends(CHINESE, CHINESE_PAIRS, 9) && Covered(CHINESE, CHINESE_PAIRS, 9) && InInput(CHINESE, CHINESE_PAIRS)
    ensures BasicTo(CHINESE, 9) == []
  {
  }

  lemma ChineseDeltas()
    ensures InInput(CHINESE, CHINESE_PAIRS) && CountTo(CHINESE, 9, 128) == 0
    ensures DeltasAre(CHINESE, CHINESE_PAIRS, CHINESE_DELTAS, 0, 9)
  {
    assert CountTo(CHINESE, 5, 19982) == 0 && CountTo(CHINESE, 7, 20014) == 1 && CountTo(CHINESE, 2, 20027) == 0;
    assert CountTo(CHINESE, 4, 20041) == 1 && CountTo(CHINESE, 3, 20161) == 1 && CountTo(CHINESE, 0, 20183) == 0;
    assert CountTo(CHINESE, 1, 20205) == 1 && CountTo(CHINESE, 8, 25992) == 7 && CountTo(CHINESE, 6, 35829) == 6;
  }

  lemma ChineseSpelling()
    ensures SpellAll(CHINESE_DELTAS, 9, 0) == [105, 104, 113, 119, 99, 114, 98, 52, 99, 118, 56, 97,
                                               56, 100, 113, 103, 48, 53, 54, 112, 113, 106, 121, 101]
  {
    hide Adapt, Vlq, Chars;
    var front := SpellAll(CHINESE_DELTAS, 5, 0);
    ChineseFront();
    ChineseBiases();
    ChineseMoreDigits();
    ChineseLastDigits();
    assert SpellAll(CHINESE_DELTAS, 7, 0) == front + [56, 100, 113, 103];
  }

  lemma ChineseFront()
    ensures SpellAll(CHINESE_DELTAS, 5, 0) == [105, 104, 113, 119, 99, 114, 98, 52, 99, 118, 56, 97]
  {
    hide Adapt, Vlq, Chars;
    ChineseBiases();
    ChineseDigits();
  }

  lemma ChineseBiases()
    ensures Adapt(19853, 1, true) == 21 && Adapt(64, 2, false) == 20 && Adapt(37, 3, false) == 13
    ensures Adapt(56, 4, false) == 17 && Adapt(599, 5, false) == 32 && Adapt(130, 6, false) == 23
    ensures Adapt(154, 7, false) == 25 && Adapt(46301, 8, false) == 84
  {
    assert Shrink(26043, 0) == 84;
  }

  lemma ChineseDigits()
    ensures Chars(Vlq(19853, 36, 72)) == [105, 104, 113]
    ensures Chars(Vlq(64, 36, 21)) == [119, 99]
    ensures Chars(Vlq(37, 36, 20)) == [114, 98]
    ensures Chars(Vlq(56, 36, 13)) == [52, 99]
    ensures Chars(Vlq(599, 36, 17)) == [118, 56, 97]
  {
  }

  lemma ChineseMoreDigits()
    ensures Chars(Vlq(130, 36, 32)) == [56, 100]
    ensures Chars(Vlq(154, 36, 23)) == [113, 103]
  {
  }

  lemma ChineseLastDigits()
    ensures Chars(Vlq(46301, 36, 25)) == [48, 53, 54, 112]
    ensures Chars(Vlq(88531, 36, 84)) == [113, 106, 121, 101]
  {
  }
}
