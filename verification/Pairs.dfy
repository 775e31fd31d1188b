/** The code points to encode, in the order in which the encoder visits them. */
module Pairs {
  import opened Bootstring
  import opened Textbook

  datatype Pair = Pair(value: CodePoint, position: nat)

  /** The order of `(value, position)` tuples. */
  predicate Less(a: Pair, b: Pair) {
    a.value < b.value || (a.value == b.value && a.position < b.position)
  }

  predicate Ordered(s: seq<Pair>) {
    forall i, j | 0 <= i < j < |s| :: Less(s[i], s[j])
  }

  /** The non-basic code points with their positions. */
  function NonBasic(input: Text): (pairs: seq<Pair>)
    ensures |pairs| == |input| - CountBelow(input, INITIAL_N)
    ensures forall x :: x in pairs <==> x.position < |input| && input[x.position] == x.value && !Basic(x.value)
    ensures forall i, j | 0 <= i < j < |pairs| :: pairs[i].position < pairs[j].position
  {
    if input == [] then []
    else
      var p := |input| - 1;
      NonBasic(input[..p]) + (if Basic(input[p]) then [] else [Pair(input[p], p)])
  }

  function SortedInsert(s: seq<Pair>, x: Pair): seq<Pair> {
    if s == [] then [x]
    else if Less(x, s[0]) then [x] + s
    else [s[0]] + SortedInsert(s[1..], x)
  }

  function Sort(s: seq<Pair>): seq<Pair> {
    if s == [] then [] else SortedInsert(Sort(s[..|s| - 1]), s[|s| - 1])
  }

  lemma {:induction false} InsertPermutes(s: seq<Pair>, x: Pair)
    ensures multiset(SortedInsert(s, x)) == multiset(s) + multiset{x}
  {
    if s != [] {
      assert s == [s[0]] + s[1..];
      InsertPermutes(s[1..], x);
    }
  }

  lemma {:induction false} InsertOrders(s: seq<Pair>, x: Pair)
    requires Ordered(s) && forall y | y in s :: y.position != x.position
    ensures Ordered(SortedInsert(s, x))
  {
    if s != [] && !Less(x, s[0]) {
      var rest := SortedInsert(s[1..], x);
      InsertOrders(s[1..], x);
      InsertPermutes(s[1..], x);
      forall y | y in rest ensures Less(s[0], y) { assert y in multiset(rest); }
    }
  }

  /** The sort is a permutation in strictly ascending order. */
  lemma {:induction false} Sorts(s: seq<Pair>)
    requires forall i, j | 0 <= i < j < |s| :: s[i].position != s[j].position
    ensures Ordered(Sort(s)) && multiset(Sort(s)) == multiset(s)
  {
    if s != [] {
      var k := |s| - 1;
      assert s == s[..k] + [s[k]];
      Sorts(s[..k]);
      InsertPermutes(Sort(s[..k]), s[k]);
      forall y | y in Sort(s[..k]) ensures y.position != s[k].position {
        assert y in multiset(Sort(s[..k]));
        assert y in s[..k];
      }
      InsertOrders(Sort(s[..k]), s[k]);
    }
  }

  /** What the encoder walks over. */
  ghost predicate Plan(input: Text, pairs: seq<Pair>) {
    && Ordered(pairs)
    && |pairs| == |input| - CountBelow(input, INITIAL_N)
    && (forall i | 0 <= i < |pairs| ::
       pairs[i].position < |input| && input[pairs[i].position] == pairs[i].value >= INITIAL_N)
    && (forall p: nat | p < |input| && !Basic(input[p]) :: Pair(input[p], p) in pairs)
  }

  lemma SortedPlan(input: Text)
    ensures Plan(input, Sort(NonBasic(input)))
  {
    var s := NonBasic(input);
    var r := Sort(s);
    Sorts(s);
    assert |r| == |multiset(r)| == |multiset(s)| == |s|;
    forall i | 0 <= i < |r| ensures r[i].position < |input| && input[r[i].position] == r[i].value >= INITIAL_N {
      assert r[i] in multiset(r);
      assert r[i] in s;
    }
    forall p: nat | p < |input| && !Basic(input[p]) ensures Pair(input[p], p) in r {
      assert Pair(input[p], p) in s;
      assert Pair(input[p], p) in multiset(r);
    }
  }

  /** The pairs before `i` are those below `n`. */
  ghost predicate SplitAt(pairs: seq<Pair>, i: nat, n: nat) {
    && i <= |pairs|
    && (forall k | 0 <= k < i :: pairs[k].value < n)
    && (forall k | i <= k < |pairs| :: pairs[k].value >= n)
  }

  /** The next pair holds the least code point that is at least `n`. */
  lemma NextIsLeast(input: Text, pairs: seq<Pair>, i: nat, n: nat)
    requires Plan(input, pairs) && SplitAt(pairs, i, n) && i < |pairs| && n >= INITIAL_N
    ensures CountBelow(input, n) < |input|
    ensures Least(input, n) == pairs[i].value
  {
    CountAll(input, n);
    assert input[pairs[i].position] >= n;
    var m := Least(input, n);
    var p :| 0 <= p < |input| && input[p] == m;
    assert Pair(m, p) in pairs;
    var k :| 0 <= k < |pairs| && pairs[k] == Pair(m, p);
    assert k == i || Less(pairs[i], pairs[k]);
  }

  /** Without pairs left, everything is below `n`. */
  lemma NothingLeft(input: Text, pairs: seq<Pair>, n: nat)
    requires Plan(input, pairs) && SplitAt(pairs, |pairs|, n) && n >= INITIAL_N
    ensures CountBelow(input, n) == |input|
  {
    CountAll(input, n);
    forall p | 0 <= p < |input| ensures input[p] < n {
      if !Basic(input[p]) { assert Pair(input[p], p) in pairs; }
    }
  }

  /** The group of `m` is visited from left to right, without a gap. */
  ghost predicate GroupAt(pairs: seq<Pair>, i: nat, m: nat, q: nat) {
    && i <= |pairs|
    && (forall k | 0 <= k < i :: pairs[k].value < m || (pairs[k].value == m && pairs[k].position < q))
    && (forall k | i <= k < |pairs| :: pairs[k].value > m || (pairs[k].value == m && pairs[k].position >= q))
  }

  /** No occurrence of `m` lies between the last one visited and the next pair. */
  lemma NoneBetween(input: Text, pairs: seq<Pair>, i: nat, m: nat, q: nat, p: nat)
    requires Plan(input, pairs) && GroupAt(pairs, i, m, q) && q <= p <= |input| && m >= INITIAL_N
    requires i < |pairs| && pairs[i].value == m ==> p <= pairs[i].position
    ensures forall x | q <= x < p :: input[x] != m
  {
    forall k | 0 <= k < |pairs| ensures pairs[k].value == m ==> !(q <= pairs[k].position < p) {
      if k > i { assert Less(pairs[i], pairs[k]); }
    }
    forall x | q <= x < p ensures input[x] != m {
      if !Basic(input[x]) { assert Pair(input[x], x) in pairs; }
    }
  }

  lemma GroupStep(input: Text, pairs: seq<Pair>, i: nat, m: nat, q: nat)
    requires Plan(input, pairs) && GroupAt(pairs, i, m, q) && i < |pairs| && pairs[i].value == m
    ensures q <= pairs[i].position < |input| && input[pairs[i].position] == m
    ensures GroupAt(pairs, i + 1, m, pairs[i].position + 1)
  {
    forall k | i < k < |pairs|
      ensures pairs[k].value > m || (pairs[k].value == m && pairs[k].position >= pairs[i].position + 1)
    {
      assert Less(pairs[i], pairs[k]);
    }
  }

  lemma GroupEnd(input: Text, pairs: seq<Pair>, i: nat, m: nat, q: nat)
    requires Plan(input, pairs) && GroupAt(pairs, i, m, q) && (i < |pairs| ==> pairs[i].value != m)
    ensures SplitAt(pairs, i, m + 1)
  {
    forall k | i <= k < |pairs| ensures pairs[k].value >= m + 1 {
      if k > i { assert Less(pairs[i], pairs[k]); }
    }
  }
}
