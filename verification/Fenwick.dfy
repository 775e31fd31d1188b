/** A binary indexed tree over an array: exclusive prefix sums, point updates, and a build in one pass. */
module Fenwick {
  /** The lowest set bit. */
  function LowBit(j: nat): (bit: nat)
    requires j > 0
    ensures 1 <= bit <= j
  {
    if j % 2 == 1 then 1 else 2 * LowBit(j / 2)
  }

  function Sum(a: seq<nat>, lo: nat, hi: nat): nat
    requires lo <= hi <= |a|
  {
    if lo == hi then 0 else Sum(a, lo, hi - 1) + a[hi - 1]
  }

  lemma {:induction false} SumSplit(a: seq<nat>, lo: nat, mid: nat, hi: nat)
    requires lo <= mid <= hi <= |a|
    ensures Sum(a, lo, hi) == Sum(a, lo, mid) + Sum(a, mid, hi)
    decreases hi
  {
    if mid < hi { SumSplit(a, lo, mid, hi - 1); }
  }

  lemma SumLast(a: seq<nat>, lo: nat, hi: nat)
    requires lo < hi <= |a|
    ensures Sum(a, lo, hi) == Sum(a, lo, hi - 1) + a[hi - 1]
  {
  }

  lemma {:induction false} SumUpdate(a: seq<nat>, i: nat, x: nat, lo: nat, hi: nat)
    requires lo <= hi <= |a| && i < |a|
    ensures Sum(a[i := x], lo, hi) == (if lo <= i < hi then Sum(a, lo, hi) - a[i] + x else Sum(a, lo, hi))
    decreases hi
  {
    if lo < hi { SumUpdate(a, i, x, lo, hi - 1); }
  }

  // ---------- which nodes cover a position ----------

  /** The next node up covers more, and begins no later. */
  lemma {:induction false} Carry(j: nat)
    requires j > 0
    ensures LowBit(j + LowBit(j)) >= 2 * LowBit(j)
  {
    if j % 2 == 0 {
      Carry(j / 2);
      assert (j + LowBit(j)) / 2 == j / 2 + LowBit(j / 2);
    }
  }

  /** Below the lowest bit of `j`, adding `j` changes no bit. */
  lemma {:induction false} Inside(j: nat, r: nat)
    requires j > 0 && 0 < r < LowBit(j)
    ensures LowBit(j + r) == LowBit(r)
  {
    if r % 2 == 0 {
      Inside(j / 2, r / 2);
      assert (j + r) / 2 == j / 2 + r / 2;
    }
  }

  /** Between a node and the next one up, no node reaches back below the first. */
  lemma Between(cur: nat, j: nat)
    requires 0 < cur < j < cur + LowBit(cur)
    ensures j - LowBit(j) >= cur
  {
    Inside(cur, j - cur);
  }

  lemma {:induction false} Strip(q: nat)
    requires q > 0 && q > LowBit(q)
    ensures LowBit(q - LowBit(q)) >= 2 * LowBit(q)
  {
    if q % 2 == 0 {
      Strip(q / 2);
      assert (q - LowBit(q)) / 2 == q / 2 - LowBit(q / 2);
    }
  }

  // ---------- how many nodes a path visits ----------

  /** How many binary digits `n` has. */
  function Bits(n: nat): nat {
    if n == 0 then 0 else Bits(n / 2) + 1
  }

  /** How many of them are 1. */
  function Ones(n: nat): nat {
    if n == 0 then 0 else Ones(n / 2) + n % 2
  }

  lemma SomeBits(n: nat)
    requires n > 0
    ensures Bits(n) > 0
  {
  }

  lemma {:induction false} BitsMonotone(n: nat, m: nat)
    requires n <= m
    ensures Bits(n) <= Bits(m)
  {
    if n > 0 { BitsMonotone(n / 2, m / 2); }
  }

  /** The way down clears one bit at each node. */
  lemma {:induction false} StripOnes(q: nat)
    requires q > 0
    ensures Ones(q - LowBit(q)) == Ones(q) - 1
  {
    if q % 2 == 0 {
      StripOnes(q / 2);
      assert (q - LowBit(q)) / 2 == q / 2 - LowBit(q / 2);
    } else {
      assert (q - 1) / 2 == q / 2;
    }
  }

  lemma {:induction false} OnesWithin(n: nat)
    ensures Ones(n) <= Bits(n)
  {
    if n > 0 { OnesWithin(n / 2); }
  }

  /** The way up doubles the lowest bit at each node. */
  lemma CarryBits(j: nat)
    requires j > 0
    ensures Bits(LowBit(j + LowBit(j))) > Bits(LowBit(j))
  {
    Carry(j);
    var twice := 2 * LowBit(j);
    assert Bits(twice) == Bits(twice / 2) + 1;
    BitsMonotone(twice, LowBit(j + LowBit(j)));
  }

  // ---------- the order in which a node is completed ----------

  predicate Power2(l: nat) {
    l == 1 || (l > 0 && l % 2 == 0 && Power2(l / 2))
  }

  lemma {:induction false} LowBitPower(j: nat)
    requires j > 0
    ensures Power2(LowBit(j))
  {
    if j % 2 == 0 { LowBitPower(j / 2); }
  }

  lemma {:induction false} PowerLowBit(l: nat)
    requires Power2(l)
    ensures LowBit(l) == l
  {
    if l > 1 { PowerLowBit(l / 2); }
  }

  /** Of a node that covers `l` positions, how many are covered by its children among the first `y` nodes below it. */
  function Edge(l: nat, y: nat): (e: nat)
    ensures e <= y
  {
    if l <= 1 || y < l / 2 then 0 else l / 2 + Edge(l / 2, y - l / 2)
  }

  lemma EdgeHalf(l: nat, y: nat)
    ensures Edge(l, y) == if l <= 1 || y < l / 2 then 0 else l / 2 + Edge(l / 2, y - l / 2)
  {
  }

  lemma EdgeNone(l: nat)
    requires l > 0
    ensures Edge(l, 0) == 0
  {
  }

  /** Node `o` below it is a child exactly if the next node up from `o` is the node itself. */
  lemma {:induction false} EdgeStep(l: nat, o: nat)
    requires Power2(l) && 0 < o < l
    ensures o + LowBit(o) <= l
    ensures o + LowBit(o) == l ==> Edge(l, o) == o && Edge(l, o - 1) == o - LowBit(o)
    ensures o + LowBit(o) != l ==> Edge(l, o) == Edge(l, o - 1)
  {
    hide Edge, LowBit;
    var half := l / 2;
    PowerLowBit(half);
    EdgeHalf(l, o);
    EdgeHalf(l, o - 1);
    EdgeNone(half);
    if o < half {
      EdgeStep(half, o);
    } else if o > half {
      Inside(half, o - half);
      EdgeStep(half, o - half);
    }
  }

  lemma {:induction false} EdgeFull(l: nat)
    requires Power2(l)
    ensures Edge(l, l - 1) == l - 1
  {
    if l > 1 { EdgeFull(l / 2); }
  }

  /** How far node `q` is filled when the first `x` nodes have been added to their parents. */
  function Reach(q: nat, x: nat): (r: nat)
    requires q > 0
    ensures q - LowBit(q) <= r < q
  {
    var l := LowBit(q);
    q - l + Edge(l, if x < q - l then 0 else if x >= q then l - 1 else x - (q - l))
  }

  lemma ReachStep(q: nat, j: nat)
    requires q > 0 && j > 0
    ensures q == j + LowBit(j) ==> Reach(q, j - 1) == j - LowBit(j) && Reach(q, j) == j
    ensures q != j + LowBit(j) ==> Reach(q, j) == Reach(q, j - 1)
  {
    hide LowBit, Edge, Power2;
    var l := LowBit(q);
    LowBitPower(q);
    if q - l < j < q {
      var o := j - (q - l);
      EdgeStep(l, o);
      if q > l {
        Strip(q);
        Inside(q - l, o);
      }
    } else if q == j + LowBit(j) {
      Carry(j);
      assert false;
    } else if j == q - l {
      EdgeNone(l);
    }
  }

  lemma ReachFull(q: nat, x: nat)
    requires 0 < q <= x + 1
    ensures Reach(q, x) == q - 1
  {
    LowBitPower(q);
    EdgeFull(LowBit(q));
  }

  /** The tree when the first `x` nodes have been added to their parents. */
  ghost predicate Filled(items: seq<nat>, tree: seq<nat>, x: nat) {
    && |tree| == |items|
    && forall q: nat | 0 < q <= |items| :: tree[q - 1] == Sum(items, q - LowBit(q), Reach(q, x)) + items[q - 1]
  }

  lemma FilledLength(items: seq<nat>, tree: seq<nat>, x: nat)
    requires Filled(items, tree, x)
    ensures |tree| == |items|
  {
  }

  lemma FilledAt(items: seq<nat>, tree: seq<nat>, x: nat, q: nat)
    requires Filled(items, tree, x) && 0 < q <= |items|
    ensures |tree| == |items| && tree[q - 1] == Sum(items, q - LowBit(q), Reach(q, x)) + items[q - 1]
  {
  }

  /** Node `j` is complete when its turn comes, and just extends what its parent holds. */
  lemma FillNode(items: seq<nat>, tree: seq<nat>, j: nat, q: nat)
    requires 0 < j <= |items| && 0 < q <= |items| && Filled(items, tree, j - 1)
    ensures |tree| == |items|
    ensures tree[q - 1] + (if q == j + LowBit(j) then tree[j - 1] else 0)
            == Sum(items, q - LowBit(q), Reach(q, j)) + items[q - 1]
  {
    hide LowBit, Reach, Sum, Filled;
    FilledAt(items, tree, j - 1, q);
    ReachStep(q, j);
    if q == j + LowBit(j) {
      FilledAt(items, tree, j - 1, j);
      ReachFull(j, j - 1);
      SumLast(items, j - LowBit(j), j);
      SumSplit(items, q - LowBit(q), j - LowBit(j), j);
    }
  }

  lemma FillStep(items: seq<nat>, tree: seq<nat>, tree': seq<nat>, j: nat)
    requires 0 < j <= |items| && Filled(items, tree, j - 1)
    requires var up := j + LowBit(j); tree' == if up <= |tree| then tree[up - 1 := tree[up - 1] + tree[j - 1]] else tree
    ensures Filled(items, tree', j)
  {
    hide LowBit, Reach, Sum;
    forall q: nat | 0 < q <= |items| ensures tree'[q - 1] == Sum(items, q - LowBit(q), Reach(q, j)) + items[q - 1] {
      FillNode(items, tree, j, q);
    }
  }

  lemma FillStart(items: seq<nat>)
    ensures Filled(items, items, 0)
  {
    forall q: nat | 0 < q <= |items| ensures Reach(q, 0) == q - LowBit(q) { EdgeNone(LowBit(q)); }
  }

  /** Node `j` holds the sum over the `LowBit(j)` positions that end with it. */
  ghost predicate Covers(counts: seq<nat>, tree: seq<nat>) {
    && |tree| == |counts|
    && forall j: nat | 0 < j <= |counts| :: tree[j - 1] == Sum(counts, j - LowBit(j), j)
  }

  lemma FilledCovers(items: seq<nat>, tree: seq<nat>)
    requires Filled(items, tree, |items|)
    ensures Covers(items, tree)
  {
    hide LowBit, Reach;
    forall q: nat | 0 < q <= |items| ensures tree[q - 1] == Sum(items, q - LowBit(q), q) {
      ReachFull(q, |items|);
    }
  }

  /** The tree when the nodes before `cur` are those for `now`, and the others still those for `counts`. */
  ghost predicate Updated(counts: seq<nat>, now: seq<nat>, tree: seq<nat>, cur: nat) {
    && |tree| == |counts| == |now|
    && forall j: nat | 0 < j <= |tree| :: tree[j - 1] == Sum(if j < cur then now else counts, j - LowBit(j), j)
  }

  lemma UpdateStart(counts: seq<nat>, tree: seq<nat>, index: nat, x: nat)
    requires Covers(counts, tree) && index < |counts|
    ensures Updated(counts, counts[index := x], tree, index + 1)
  {
    hide LowBit;
    forall j: nat | 0 < j <= index ensures tree[j - 1] == Sum(counts[index := x], j - LowBit(j), j) {
      SumUpdate(counts, index, x, j - LowBit(j), j);
    }
  }

  lemma UpdateStep(counts: seq<nat>, tree: seq<nat>, index: nat, diff: nat, cur: nat)
    requires 0 < cur <= |tree| && index < |counts| && cur > index >= cur - LowBit(cur)
    requires Updated(counts, counts[index := counts[index] + diff], tree, cur)
    ensures Updated(counts, counts[index := counts[index] + diff], tree[cur - 1 := tree[cur - 1] + diff],
                    cur + LowBit(cur))
    ensures index >= cur + LowBit(cur) - LowBit(cur + LowBit(cur))
  {
    hide LowBit;
    var now := counts[index := counts[index] + diff];
    Carry(cur);
    forall j: nat | cur <= j < cur + LowBit(cur) && j <= |tree|
      ensures Sum(now, j - LowBit(j), j) == Sum(counts, j - LowBit(j), j) + (if j == cur then diff else 0)
    {
      if j > cur { Between(cur, j); }
      SumUpdate(counts, index, now[index], j - LowBit(j), j);
    }
  }

  lemma UpdateEnd(counts: seq<nat>, now: seq<nat>, tree: seq<nat>, cur: nat)
    requires Updated(counts, now, tree, cur) && cur > |tree|
    ensures Covers(now, tree)
  {
  }

  class Tree {
    const inner: array<nat>
    ghost var counts: seq<nat>
    ghost var pushes: nat  // how many nodes the build has added to their parents

    ghost predicate Valid()
      reads this, inner
    {
      Covers(counts, inner[..])
    }

    /** One pass: each node, once complete, is added to the next one up. */
    constructor FromIter(items: seq<nat>)
      ensures Valid() && fresh(inner) && inner.Length == |items| && counts == items && pushes == |items|
    {
      inner := new nat[|items|](i requires 0 <= i < |items| => items[i]);
      counts, pushes := items, 0;
      new;
      hide LowBit, Sum, Reach, Filled, Covers;
      assert inner[..] == items;
      FillStart(items);
      var j: nat := 1;
      while j <= |items|
        invariant 1 <= j <= |items| + 1 && counts == items && pushes == j - 1
        invariant Filled(items, inner[..], j - 1)
      {
        Push(j, items);
        pushes := pushes + 1;
        j := j + 1;
      }
      FilledCovers(items, inner[..]);
    }

    /** Adds node `j` to the next one up. */
    method Push(j: nat, ghost items: seq<nat>)
      requires 0 < j <= |items| && Filled(items, inner[..], j - 1)
      modifies inner
      ensures Filled(items, inner[..], j)
    {
      hide LowBit, Filled;
      ghost var was := inner[..];
      FilledLength(items, was, j - 1);
      var up := j + LowBit(j);
      if up <= inner.Length {
        inner[up - 1] := inner[up - 1] + inner[j - 1];
        assert inner[..] == was[up - 1 := was[up - 1] + was[j - 1]];
      }
      FillStep(items, was, inner[..], j);
    }

    /** The sum over the positions before `index`, on top of `init`. It visits a node for each bit of `index`. */
    method PrefixSum(index: nat, init: nat) returns (sum: nat, ghost visits: nat)
      requires Valid() && index <= inner.Length
      ensures sum == init + Sum(counts, 0, index)
      ensures visits == Ones(index) <= Bits(inner.Length)
    {
      sum, visits := init, 0;
      var cur: nat := index;
      OnesWithin(index);
      BitsMonotone(index, inner.Length);
      while cur > 0
        invariant cur <= index && visits + Ones(cur) == Ones(index)
        invariant sum + Sum(counts, 0, cur) == init + Sum(counts, 0, index)
      {
        SumSplit(counts, 0, cur - LowBit(cur), cur);
        StripOnes(cur);
        sum := sum + inner[cur - 1];
        visits := visits + 1;
        cur := cur - LowBit(cur);
      }
    }

    /** Adds `diff` at `index`; it visits no more nodes than the length has binary digits. */
    method AddAt(index: nat, diff: nat) returns (ghost visits: nat)
      requires Valid() && index < inner.Length
      modifies this`counts, inner
      ensures Valid() && counts == old(counts)[index := old(counts)[index] + diff]
      ensures visits <= Bits(inner.Length)
    {
      hide LowBit, Sum, Updated, Bits;
      visits := 0;
      ghost var now := counts[index := counts[index] + diff];
      UpdateStart(counts, inner[..], index, counts[index] + diff);
      var cur: nat := index + 1;
      SomeBits(LowBit(cur));
      while cur <= inner.Length
        invariant cur > index >= cur - LowBit(cur)
        invariant visits < Bits(LowBit(cur)) && visits <= Bits(inner.Length)
        invariant counts == old(counts)
        invariant Updated(counts, now, inner[..], cur)
        decreases inner.Length + 1 - cur
      {
        ghost var was := inner[..];
        UpdateStep(counts, was, index, diff, cur);
        BitsMonotone(LowBit(cur), inner.Length);
        CarryBits(cur);
        visits := visits + 1;
        inner[cur - 1] := inner[cur - 1] + diff;
        assert inner[..] == was[cur - 1 := was[cur - 1] + diff];
        cur := cur + LowBit(cur);
      }
      counts := now;
      UpdateEnd(old(counts), now, inner[..], cur);
    }
  }
}
