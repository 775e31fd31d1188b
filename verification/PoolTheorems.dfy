/** What every run of the pool guarantees, for any number of local states. */
module PoolTheorems {
  import opened Wrappers
  import opened Arithmetic
  import opened Blocks
  import opened Pool
  import opened PoolRuns

  ghost predicate IsRun(states: seq<State>, actions: seq<Action>) {
    && |states| == |actions| + 1
    && Initial(states[0])
    && forall k: nat | k < |actions| ::
         Enabled(states[k], actions[k]) && states[k].config.Valid() && states[k + 1] == Next(states[k], actions[k])
  }

  lemma {:induction false} RunInv(states: seq<State>, actions: seq<Action>, k: nat)
    requires IsRun(states, actions) && k < |states|
    ensures Inv(states[k])
  {
    hide Inv, Next, Initial;
    if k == 0 {
      InitialOk(states[0]);
    } else {
      RunInv(states, actions, k - 1);
      NextOk(states[k - 1], actions[k - 1]);
    }
  }

  // ---------- partition ----------

  /** Conservation: free, rented and pending states together are the states of all blocks, each exactly once. */
  lemma Conservation(states: seq<State>, actions: seq<Action>, k: nat)
    requires IsRun(states, actions) && k < |states|
    ensures states[k].config.Valid()
    ensures var s := states[k];
            multiset(s.freelist) + Rented(s.clients) + multiset(Pending(s)) == multiset(s.config.States(s.mmaps))
    ensures var s := states[k];
            |s.freelist| + |Rented(s.clients)| + |Pending(s)|
            == s.config.pagesPerBlock * s.config.statesPerPage * |s.mmaps|
  {
    hide Next, Rented, Pending, Config.States, Shape, Mapped;
    var s := states[k];
    RunInv(states, actions, k);
    StateCount(s.config, s.mmaps);
    assert |multiset(s.freelist) + Rented(s.clients) + multiset(Pending(s))| == |multiset(s.config.States(s.mmaps))|;
  }

  lemma TwoRented(clients: seq<Client>, i: nat, j: nat)
    requires i < |clients| && j < |clients| && i != j && clients[i].Holding? && clients[j].Holding?
    ensures multiset{clients[i].ptr} + multiset{clients[j].ptr} <= Rented(clients)
  {
    assert Taken(clients[i]) == multiset{clients[i].ptr} && Taken(clients[j]) == multiset{clients[j].ptr}
           && Taken(Idle) == multiset{};
    hide Rented, Taken;
    RentedLess(clients, i, Idle, clients[i].ptr);
    RentedLess(clients[i := Idle], j, Idle, clients[j].ptr);
  }

  lemma OneRented(clients: seq<Client>, i: nat)
    requires i < |clients| && clients[i].Holding?
    ensures multiset{clients[i].ptr} <= Rented(clients)
  {
    assert Taken(clients[i]) == multiset{clients[i].ptr} && Taken(Idle) == multiset{};
    hide Rented, Taken;
    RentedLess(clients, i, Idle, clients[i].ptr);
  }

  /**
   * Exclusive use. What a local state holds lies inside one page of one mapped block, and overlaps
   * neither what another one holds, nor what is in the free list or still to be pushed there.
   */
  lemma Exclusive(states: seq<State>, actions: seq<Action>, k: nat, i: nat) returns (b: nat, p: nat)
    requires IsRun(states, actions) && k < |states| && i < |states[k].clients| && states[k].clients[i].Holding?
    ensures states[k].config.Valid()
    ensures var s := states[k];
            && b < |s.mmaps| && Mod(s.mmaps[b], s.config.pageSize) == 0 && p < s.config.pagesPerBlock
            && s.mmaps[b] + p * s.config.pageSize <= s.clients[i].ptr
            && s.clients[i].ptr + s.config.stateSize <= s.mmaps[b] + (p + 1) * s.config.pageSize
    ensures forall j | 0 <= j < |states[k].clients| && j != i && states[k].clients[j].Holding? ::
              Separate(states[k].clients[i].ptr, states[k].clients[j].ptr, states[k].config.stateSize)
    ensures forall f | f in states[k].freelist || f in Pending(states[k]) ::
              Separate(states[k].clients[i].ptr, f, states[k].config.stateSize)
  {
    hide Next, Rented, Pending, Config.States, Shape;
    var s := states[k];
    var ptr := s.clients[i].ptr;
    RunInv(states, actions, k);
    Conservation(states, actions, k);
    var all := s.config.States(s.mmaps);
    OneRented(s.clients, i);
    assert ptr in multiset(all);
    var n :| 0 <= n < |all| && all[n] == ptr;
    b, p := StateInPage(s.config, s.mmaps, n);
    forall j | 0 <= j < |s.clients| && j != i && s.clients[j].Holding?
      ensures Separate(ptr, s.clients[j].ptr, s.config.stateSize)
    {
      TwoRented(s.clients, i, j);
      MembersApart(s.config, s.mmaps, ptr, s.clients[j].ptr);
    }
    forall f | f in s.freelist || f in Pending(s) ensures Separate(ptr, f, s.config.stateSize) {
      assert f in multiset(s.freelist) || f in multiset(Pending(s));
      assert multiset{f} <= multiset(s.freelist) || multiset{f} <= multiset(Pending(s));
      MembersApart(s.config, s.mmaps, ptr, f);
    }
  }

  /** `Drop` counts what it expects exactly when every state is back and no block is half pushed. */
  lemma DropCount(states: seq<State>, actions: seq<Action>, k: nat)
    requires IsRun(states, actions) && k < |states|
    ensures states[k].config.Valid()
    ensures var s := states[k];
            |s.freelist| == s.config.pagesPerBlock * s.config.statesPerPage * |s.mmaps| <==>
            Rented(s.clients) == multiset{} && Pending(s) == []
    ensures (forall i | 0 <= i < |states[k].clients| :: states[k].clients[i].Idle?) ==>
              Rented(states[k].clients) == multiset{} && Pending(states[k]) == []
  {
    hide Next, Config.States, Mapped;
    Conservation(states, actions, k);
    if forall i | 0 <= i < |states[k].clients| :: states[k].clients[i].Idle? { NoneRented(states[k].clients); }
  }

  /** A pool with the configuration for a page size and a state size keeps states apart by that size. */
  lemma NewPoolExclusive(states: seq<State>, actions: seq<Action>, k: nat, i: nat, j: nat,
                         pageSize: nat, stateSize: nat, cpus: nat) returns (b: nat, p: nat)
    requires 1 <= stateSize <= pageSize && IsRun(states, actions) && k < |states|
    requires states[0].config == NewConfig(pageSize, stateSize, cpus)
    requires i < |states[k].clients| && states[k].clients[i].Holding?
    requires j < |states[k].clients| && states[k].clients[j].Holding? && i != j
    ensures Separate(states[k].clients[i].ptr, states[k].clients[j].ptr, stateSize)
    ensures var s := states[k];
            && b < |s.mmaps| && Mod(s.mmaps[b], pageSize) == 0
            && s.mmaps[b] + p * pageSize <= s.clients[i].ptr
            && s.clients[i].ptr + stateSize <= s.mmaps[b] + (p + 1) * pageSize
  {
    hide Next, NewConfig;
    SameConfig(states, actions, k);
    b, p := Exclusive(states, actions, k, i);
  }

  lemma {:induction false} SameConfig(states: seq<State>, actions: seq<Action>, k: nat)
    requires IsRun(states, actions) && k < |states|
    ensures states[k].config == states[0].config
  {
    hide Initial, Rented;
    if k > 0 { SameConfig(states, actions, k - 1); }
  }

  // ---------- growth ----------

  lemma PeakStep(s: State, a: Action)
    requires Enabled(s, a) && s.config.Valid()
    ensures Next(s, a).peak == s.peak || Next(s, a).peak == |Rented(Next(s, a).clients)|
  {
    hide Rented;
  }

  /** `peak` is a number of states that were rented at the same time. */
  lemma {:induction false} PeakAttained(states: seq<State>, actions: seq<Action>, k: nat) returns (j: nat)
    requires IsRun(states, actions) && k < |states|
    ensures j <= k && |Rented(states[j].clients)| == states[k].peak
  {
    hide Next, Rented;
    if k == 0 {
      NoneRented(states[0].clients);
      j := 0;
      return;
    }
    PeakStep(states[k - 1], actions[k - 1]);
    if states[k].peak == states[k - 1].peak {
      j := PeakAttained(states, actions, k - 1);
    } else {
      j := k;
    }
  }

  /**
   * Growth bound. All blocks but one can be filled with states that were rented at the same moment,
   * although others take states from the free list without the lock while it grows.
   */
  lemma GrowthBound(states: seq<State>, actions: seq<Action>, k: nat) returns (j: nat)
    requires IsRun(states, actions) && k < |states|
    ensures j <= k
    ensures var s := states[k];
            (|s.mmaps| - 1) * s.config.StatesPerBlock() <= |Rented(states[j].clients)| <= |s.clients|
  {
    hide Next, Rented, Mapped, Config.States, Config.StatesPerBlock;
    RunInv(states, actions, k);
    j := PeakAttained(states, actions, k);
    if states[k].mmaps == [] { NoBlocks(states[k].config.StatesPerBlock()); }
  }

  lemma NoBlocks(n: nat)
    ensures (0 - 1) * n <= 0
  {
  }

  // ---------- progress ----------

  /** No deadlock: as long as a `get` is under way, some thread can step. */
  lemma SomeoneSteps(states: seq<State>, actions: seq<Action>, k: nat, i: nat) returns (j: nat)
    requires IsRun(states, actions) && k < |states| && i < |states[k].clients|
    requires !states[k].clients[i].Idle? && !states[k].clients[i].Holding?
    ensures Enabled(states[k], Step(j, None))
  {
    hide Next, Rented, Mapped, Config.States, Partition;
    RunInv(states, actions, k);
    var s := states[k];
    j := if s.holder.Some? then s.holder.value else i;
  }

  // ---------- the loop in `get` ends ----------

  predicate InGet(c: Client) {
    !c.Idle? && !c.Holding?
  }

  /** How many steps of a `get` are left if it maps no further block. */
  function Left(config: Config, c: Client): int {
    match c
    case PopOutside => 5
    case WaitLock => 4
    case PopInside => 3
    case MapBlock => 2
    case Pushing(_, pushed) => config.StatesPerBlock() - pushed + 4
    case Leave(_) => 1
    case _ => 0
  }

  /** How many steps are left in all: each block that may still be mapped costs a round of the loop. */
  function GetRank(s: State, i: nat): int
    requires i < |s.clients|
  {
    (|s.clients| + 1 - |s.mmaps|) * (s.config.StatesPerBlock() + 4) + Left(s.config, s.clients[i])
  }

  lemma BlocksFit(blocks: nat, states: nat, limit: nat)
    requires states >= 1 && (blocks == 0 || (blocks - 1) * states <= limit)
    ensures blocks <= limit + 1
  {
    if blocks > limit + 1 { Further(limit, blocks - 1, states); Product(limit, limit, 1, states); }
  }

  /** There are never more blocks than clients, and one. */
  lemma FewBlocks(s: State)
    requires Inv(s)
    ensures |s.mmaps| <= |s.clients| + 1
  {
    hide Mapped, Partition, Rented, Config.States, Config.StatesPerBlock;
    StateCapacity(s.config);
    BlocksFit(|s.mmaps|, s.config.StatesPerBlock(), |s.clients|);
  }

  lemma StateCapacity(config: Config)
    requires config.Valid()
    ensures config.StatesPerBlock() >= 1
  {
    Stretch(config.pagesPerBlock, config.statesPerPage);
  }

  lemma RankBounds(s: State, i: nat)
    requires Inv(s) && i < |s.clients|
    ensures 0 <= GetRank(s, i) <= (|s.clients| + 2) * (s.config.StatesPerBlock() + 4)
  {
    hide Mapped, Partition, Rented, Config.States, Config.StatesPerBlock;
    FewBlocks(s);
    StateCapacity(s.config);
    var more, round := |s.clients| + 1 - |s.mmaps|, s.config.StatesPerBlock() + 4;
    Product(more, |s.clients| + 1, round, round);
    Product(0, more, 0, round);
    Wrap(|s.clients| + 1, round);
  }

  /** Its own steps bring a `get` closer to its end, also when they map a block. */
  lemma OwnStepDrops(s: State, i: nat, mapped: Option<nat>)
    requires Inv(s) && Enabled(s, Step(i, mapped)) && s.config.statesPerPage > 0
    ensures |Next(s, Step(i, mapped)).clients| == |s.clients|
    ensures GetRank(Next(s, Step(i, mapped)), i) < GetRank(s, i)
  {
    hide Mapped, Partition, Rented, Config.States, Config.StatesPerBlock, Fresh;
    OneMore(|s.clients| + 1 - |s.mmaps|, s.config.StatesPerBlock() + 4);
  }

  lemma OneMore(n: int, k: int)
    ensures (n - 1) * k == n * k - k
  {
  }

  /** What others do costs a `get` no further steps. */
  lemma OtherStepKeeps(s: State, a: Action, i: nat)
    requires Inv(s) && Enabled(s, a) && s.config.statesPerPage > 0 && i < |s.clients| && a.client != i
    ensures |Next(s, a).clients| == |s.clients| && Next(s, a).clients[i] == s.clients[i]
    ensures GetRank(Next(s, a), i) <= GetRank(s, i)
  {
    hide Mapped, Partition, Rented, Config.States, Config.StatesPerBlock, Fresh;
    OneMore(|s.clients| + 1 - |s.mmaps|, s.config.StatesPerBlock() + 4);
  }

  /** How many steps client `i` makes from state `k` to state `l`. */
  function OwnSteps(actions: seq<Action>, k: nat, l: nat, i: nat): nat
    requires k <= l <= |actions|
  {
    if k == l then 0
    else OwnSteps(actions, k, l - 1, i) + (if actions[l - 1].Step? && actions[l - 1].client == i then 1 else 0)
  }

  lemma {:induction false} RankFalls(states: seq<State>, actions: seq<Action>, k: nat, l: nat, i: nat)
    requires IsRun(states, actions) && k <= l < |states| && i < |states[k].clients|
    requires forall j: nat | k <= j < l :: i < |states[j].clients| && InGet(states[j].clients[i])
    ensures i < |states[l].clients| && OwnSteps(actions, k, l, i) + GetRank(states[l], i) <= GetRank(states[k], i)
  {
    hide Next, Inv, GetRank, Initial;
    if k < l {
      RankFalls(states, actions, k, l - 1, i);
      RunInv(states, actions, l - 1);
      var s, a := states[l - 1], actions[l - 1];
      if a.client == i {
        OwnStepDrops(s, i, a.mapped);
      } else {
        OtherStepKeeps(s, a, i);
      }
    }
  }

  /**
   * Every `get` ends. However the others pop, push and return meanwhile, a `get` makes no more
   * steps than this before it holds a state or has failed.
   */
  lemma GetEnds(states: seq<State>, actions: seq<Action>, k: nat, l: nat, i: nat)
    requires IsRun(states, actions) && k <= l < |states| && i < |states[k].clients|
    requires forall j: nat | k <= j < l :: i < |states[j].clients| && InGet(states[j].clients[i])
    ensures OwnSteps(actions, k, l, i) <= (|states[k].clients| + 2) * (states[k].config.StatesPerBlock() + 4)
  {
    hide Next, Inv, GetRank, Initial;
    RankFalls(states, actions, k, l, i);
    RunInv(states, actions, k);
    RunInv(states, actions, l);
    RankBounds(states[k], i);
    RankBounds(states[l], i);
  }
}
