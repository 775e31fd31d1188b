/** Where the opaque states of the random generator lie in the mapped blocks. */
module Blocks {
  import opened Arithmetic

  /** What `Config::new` computes, and the state size it asked the vDSO for. */
  datatype Config = Config(pageSize: nat, pagesPerBlock: nat, statesPerPage: nat, stateSize: nat) {
    /** A state fits into a page, and a block holds at least one page. */
    ghost predicate Valid() {
      && 1 <= stateSize && 1 <= statesPerPage && 1 <= pagesPerBlock && 1 <= pageSize
      && statesPerPage * stateSize <= pageSize
    }

    function BlockBytes(): nat {
      pageSize * pagesPerBlock
    }

    function StatesPerBlock(): nat {
      pagesPerBlock * statesPerPage
    }

    /** The address of state `j` of the block at `page`. */
    function StateAt(page: nat, j: nat): nat
      requires statesPerPage > 0
    {
      page + Div(j, statesPerPage) * pageSize + Mod(j, statesPerPage) * stateSize
    }

    /** The states of the block at `page`, in the order in which `grow` pushes them. */
    function BlockStates(page: nat): (states: seq<nat>)
      requires statesPerPage > 0
      ensures |states| == StatesPerBlock()
    {
      seq(StatesPerBlock(), j requires 0 <= j < StatesPerBlock() => StateAt(page, j))
    }

    /** The states of all mapped blocks. */
    function States(mmaps: seq<nat>): (states: seq<nat>)
      requires statesPerPage > 0
      ensures |states| == |mmaps| * StatesPerBlock()
    {
      if mmaps == [] then []
      else
        Wrap(|mmaps| - 1, StatesPerBlock());
        States(mmaps[..|mmaps| - 1]) + BlockStates(mmaps[|mmaps| - 1])
    }
  }

  /** The page count of a block: enough bytes for one state per CPU, and one page more if that is a whole number. */
  function NewConfig(pageSize: nat, stateSize: nat, cpus: nat): (config: Config)
    requires 1 <= stateSize <= pageSize
    ensures config.Valid() && config.pageSize == pageSize && config.stateSize == stateSize
    ensures config.BlockBytes() > cpus * stateSize
    ensures config.BlockBytes() - pageSize <= cpus * stateSize
    ensures (config.statesPerPage + 1) * stateSize > pageSize
  {
    var guessed := cpus * stateSize;
    DivMod(guessed, pageSize);
    var aligned := guessed + (pageSize - Mod(guessed, pageSize));
    AlignedPages(guessed, pageSize);
    PageFits(pageSize, stateSize);
    Config(pageSize, Div(aligned, pageSize), Div(pageSize, stateSize), stateSize)
  }

  lemma AlignedPages(guessed: nat, pageSize: nat)
    requires pageSize > 0
    ensures Mod(guessed, pageSize) < pageSize
    ensures var pages := Div(guessed + (pageSize - Mod(guessed, pageSize)), pageSize);
            pages == Div(guessed, pageSize) + 1 && pageSize * pages > guessed >= pageSize * pages - pageSize
  {
    hide Div, Mod;
    var q := Div(guessed, pageSize);
    DivMod(guessed, pageSize);
    Wrap(q, pageSize);
    Quotient(guessed + (pageSize - Mod(guessed, pageSize)), q + 1, pageSize, 0);
  }

  lemma PageFits(pageSize: nat, stateSize: nat)
    requires 1 <= stateSize <= pageSize
    ensures var n := Div(pageSize, stateSize);
            n >= 1 && n * stateSize <= pageSize < (n + 1) * stateSize
  {
    hide Div, Mod;
    var n := Div(pageSize, stateSize);
    DivMod(pageSize, stateSize);
    Wrap(n, stateSize);
  }

  /** The bytes of a block are those of its states, the gaps at the ends of its pages, and nothing else. */
  lemma BlockCapacity(pageSize: nat, stateSize: nat, cpus: nat)
    requires 1 <= stateSize <= pageSize
    ensures Mod(cpus * stateSize, pageSize) < pageSize
    ensures NewConfig(pageSize, stateSize, cpus).StatesPerBlock() * stateSize
              + (Div(cpus * stateSize, pageSize) + 1) * Mod(pageSize, stateSize)
            == cpus * stateSize + (pageSize - Mod(cpus * stateSize, pageSize))
  {
    hide Div, Mod;
    var guessed := cpus * stateSize;
    var q, n, gap := Div(guessed, pageSize), Div(pageSize, stateSize), Mod(pageSize, stateSize);
    AlignedPages(guessed, pageSize);
    DivMod(guessed, pageSize);
    DivMod(pageSize, stateSize);
    Wrap(q, pageSize);
    Regroup(q + 1, n, stateSize, gap, pageSize);
  }

  lemma Regroup(pages: nat, n: nat, size: nat, gap: nat, pageSize: nat)
    requires pageSize == n * size + gap
    ensures pages * n * size + pages * gap == pages * pageSize
  {
    calc {
      pages * pageSize;
      pages * (n * size + gap);
      pages * (n * size) + pages * gap;
      pages * n * size + pages * gap;
    }
  }

  /** `a` is fewer than `b` exactly if as many states take fewer bytes. */
  lemma FewerBytes(a: nat, b: nat, size: nat)
    requires size > 0
    ensures a < b <==> a * size < b * size
  {
    if a < b { Further(a, b, size); } else { Product(b, a, size, size); }
  }

  /**
   * A block has fewer states than there are CPUs exactly when the gaps at the ends of all its
   * pages take more than what the last page has to spare.
   */
  lemma BlockTooSmall(pageSize: nat, stateSize: nat, cpus: nat)
    requires 1 <= stateSize <= pageSize
    ensures NewConfig(pageSize, stateSize, cpus).StatesPerBlock() < cpus
            <==> (Div(cpus * stateSize, pageSize) + 1) * Mod(pageSize, stateSize)
                 > pageSize - Mod(cpus * stateSize, pageSize)
  {
    hide Div, Mod, NewConfig;
    BlockCapacity(pageSize, stateSize, cpus);
    FewerBytes(NewConfig(pageSize, stateSize, cpus).StatesPerBlock(), cpus, stateSize);
  }

  /** Without gaps a block has a state for every CPU, and at least one to spare. */
  lemma BlockServesEveryCpu(pageSize: nat, stateSize: nat, cpus: nat)
    requires 1 <= stateSize <= pageSize && Mod(pageSize, stateSize) == 0
    ensures NewConfig(pageSize, stateSize, cpus).StatesPerBlock() > cpus
  {
    hide Div, Mod, NewConfig;
    BlockCapacity(pageSize, stateSize, cpus);
    FewerBytes(cpus, NewConfig(pageSize, stateSize, cpus).StatesPerBlock(), stateSize);
  }

  /** Pages of 4096 bytes, states of 144 bytes and 85 CPUs: one state is missing. */
  lemma OneStateMissing()
    ensures NewConfig(4096, 144, 85).StatesPerBlock() == 84
  {
  }

  // ---------- the states of one block ----------

  /** State `j` lies inside one page of its block. */
  lemma InPage(config: Config, page: nat, j: nat)
    requires config.Valid() && j < config.StatesPerBlock()
    ensures var p := Div(j, config.statesPerPage);
            && p < config.pagesPerBlock
            && page + p * config.pageSize <= config.StateAt(page, j)
            && config.StateAt(page, j) + config.stateSize <= page + (p + 1) * config.pageSize
               <= page + config.BlockBytes()
  {
    var n := config.statesPerPage;
    hide Div, Mod;
    var p, s := Div(j, n), Mod(j, n);
    DivMod(j, n);
    if p >= config.pagesPerBlock { Product(config.pagesPerBlock, p, n, n); }
    Wrap(s, config.stateSize);
    Product(s + 1, n, config.stateSize, config.stateSize);
    Wrap(p, config.pageSize);
    Product(p + 1, config.pagesPerBlock, config.pageSize, config.pageSize);
  }

  /** The states of a block do not overlap. */
  lemma BlockApart(config: Config, page: nat, j: nat, k: nat)
    requires config.Valid() && j < k < config.StatesPerBlock()
    ensures config.StateAt(page, j) + config.stateSize <= config.StateAt(page, k)
  {
    var n := config.statesPerPage;
    Lexicographic(j, k, n);
    InPage(config, page, j);
    InPage(config, page, k);
    Placed(Div(j, n), Div(k, n), config.pageSize, Mod(j, n), Mod(k, n), config.stateSize);
  }

  /** Two states in different pages, or at different places of one page. */
  lemma Placed(p: nat, q: nat, pageSize: nat, s: nat, t: nat, size: nat)
    requires p < q || (p == q && s < t)
    ensures p < q ==> (p + 1) * pageSize <= q * pageSize
    ensures p == q ==> p * pageSize + s * size + size <= q * pageSize + t * size
  {
    if p < q { Product(p + 1, q, pageSize, pageSize); } else { Wrap(s, size); Product(s + 1, t, size, size); }
  }

  // ---------- the states of all blocks ----------

  ghost predicate BlocksApart(config: Config, a: nat, b: nat) {
    a + config.BlockBytes() <= b || b + config.BlockBytes() <= a
  }

  /** The mapped blocks start at pages and do not overlap. */
  ghost predicate Mapped(config: Config, mmaps: seq<nat>) {
    && config.Valid()
    && (forall i | 0 <= i < |mmaps| :: Mod(mmaps[i], config.pageSize) == 0)
    && forall i, j | 0 <= i < j < |mmaps| :: BlocksApart(config, mmaps[i], mmaps[j])
  }

  ghost predicate Separate(a: nat, b: nat, size: nat) {
    a + size <= b || b + size <= a
  }

  /** Where the `i`th state comes from. */
  lemma {:induction false} StateOrigin(config: Config, mmaps: seq<nat>, i: nat)
      returns (b: nat, j: nat)
    requires config.Valid() && i < |config.States(mmaps)|
    ensures b < |mmaps| && j < config.StatesPerBlock() && config.States(mmaps)[i] == config.StateAt(mmaps[b], j)
    ensures i == b * config.StatesPerBlock() + j
  {
    var last := |mmaps| - 1;
    var front := config.States(mmaps[..last]);
    if i < |front| {
      b, j := StateOrigin(config, mmaps[..last], i);
    } else {
      b, j := last, i - |front|;
    }
  }

  /** Every state lies inside one page of one mapped block. */
  lemma StateInPage(config: Config, mmaps: seq<nat>, i: nat) returns (b: nat, p: nat)
    requires Mapped(config, mmaps) && i < |config.States(mmaps)|
    ensures b < |mmaps| && p < config.pagesPerBlock
    ensures mmaps[b] + p * config.pageSize <= config.States(mmaps)[i]
    ensures config.States(mmaps)[i] + config.stateSize <= mmaps[b] + (p + 1) * config.pageSize
  {
    var j;
    b, j := StateOrigin(config, mmaps, i);
    InPage(config, mmaps[b], j);
    p := Div(j, config.statesPerPage);
  }

  lemma TwoOrigins(config: Config, mmaps: seq<nat>, i: nat, k: nat) returns (b: nat, j: nat, c: nat, l: nat)
    requires config.Valid() && i < k < |config.States(mmaps)|
    ensures b < |mmaps| && j < config.StatesPerBlock() && config.States(mmaps)[i] == config.StateAt(mmaps[b], j)
    ensures c < |mmaps| && l < config.StatesPerBlock() && config.States(mmaps)[k] == config.StateAt(mmaps[c], l)
    ensures b == c ==> j < l
  {
    b, j := StateOrigin(config, mmaps, i);
    c, l := StateOrigin(config, mmaps, k);
  }

  lemma InBlock(config: Config, page: nat, j: nat)
    requires config.Valid() && j < config.StatesPerBlock()
    ensures page <= config.StateAt(page, j) && config.StateAt(page, j) + config.stateSize <= page + config.BlockBytes()
  {
    InPage(config, page, j);
    Product(0, Div(j, config.statesPerPage), 0, config.pageSize);
  }

  /** No two states overlap. */
  lemma StatesApart(config: Config, mmaps: seq<nat>, i: nat, k: nat)
    requires Mapped(config, mmaps) && i < k < |config.States(mmaps)|
    ensures Separate(config.States(mmaps)[i], config.States(mmaps)[k], config.stateSize)
  {
    hide Config.BlockBytes, Config.StateAt, Config.States, Config.StatesPerBlock;
    var b, j, c, l := TwoOrigins(config, mmaps, i, k);
    InBlock(config, mmaps[b], j);
    InBlock(config, mmaps[c], l);
    if b == c {
      BlockApart(config, mmaps[b], j, l);
    } else if b < c {
      assert BlocksApart(config, mmaps[b], mmaps[c]);
    } else {
      assert BlocksApart(config, mmaps[c], mmaps[b]);
    }
  }

  /**
   * With the configuration for a page size and a state size, two states of mapped blocks are apart
   * by that state size, and each lies inside one page of that page size.
   */
  lemma NewStatesApart(pageSize: nat, stateSize: nat, cpus: nat, mmaps: seq<nat>, i: nat, k: nat)
      returns (b: nat, p: nat)
    requires 1 <= stateSize <= pageSize
    requires var config := NewConfig(pageSize, stateSize, cpus);
             Mapped(config, mmaps) && i < |config.States(mmaps)| && k < |config.States(mmaps)|
    ensures var states := NewConfig(pageSize, stateSize, cpus).States(mmaps);
            && (i != k ==> Separate(states[i], states[k], stateSize))
            && b < |mmaps| && Mod(mmaps[b], pageSize) == 0
            && mmaps[b] + p * pageSize <= states[i] && states[i] + stateSize <= mmaps[b] + (p + 1) * pageSize
  {
    hide Div, Mod, NewConfig, Config.States;
    var config := NewConfig(pageSize, stateSize, cpus);
    b, p := StateInPage(config, mmaps, i);
    if i < k { StatesApart(config, mmaps, i, k); } else if k < i { StatesApart(config, mmaps, k, i); }
  }
}
