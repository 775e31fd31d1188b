/** The pool of opaque states, used by one thread at a time. */
module Pool {
  import opened Arithmetic
  import opened Blocks
  import opened Wrappers

  datatype Error = AllocationFailure

  datatype Rent = Granted(ptr: nat) | Failed(error: Error)

  /** A fresh page-aligned block, disjoint from all mapped ones, or nothing: what `mmap` may answer. */
  ghost predicate Fresh(config: Config, mmaps: seq<nat>, page: Option<nat>)
    requires config.Valid()
  {
    page.Some? ==>
      && Mod(page.value, config.pageSize) == 0
      && forall i | 0 <= i < |mmaps| :: BlocksApart(config, mmaps[i], page.value)
  }

  class Pool {
    const config: Config
    var mmaps: seq<nat>
    var freelist: seq<nat>
    /** The states that have been taken and not yet recycled. */
    ghost var rented: multiset<nat>

    /** Every state of every block is free or rented, and none is both. */
    ghost predicate Valid()
      reads this
    {
      && Mapped(config, mmaps)
      && multiset(freelist) + rented == multiset(config.States(mmaps))
    }

    constructor (config: Config)
      requires config.Valid()
      ensures Valid() && this.config == config && mmaps == [] && freelist == [] && rented == multiset{}
    {
      this.config := config;
      mmaps, freelist, rented := [], [], multiset{};
    }

    /** Maps one block and pushes its states, page by page; nothing changes if the mapping fails. */
    method Grow(page: Option<nat>) returns (ok: bool)
      requires Valid() && Fresh(config, mmaps, page)
      modifies this
      ensures Valid() && rented == old(rented)
      ensures ok <==> page.Some?
      ensures ok ==> mmaps == old(mmaps) + [page.value] && freelist == old(freelist) + config.BlockStates(page.value)
      ensures !ok ==> mmaps == old(mmaps) && freelist == old(freelist)
    {
      hide Config.StateAt, Config.States, Config.BlockBytes, Config.StatesPerBlock;
      if page.None? { return false; }
      var base := page.value;
      mmaps := mmaps + [base];
      ghost var states := config.BlockStates(base);
      ghost var pushed: nat := 0;
      for p := 0 to config.pagesPerBlock
        invariant mmaps == old(mmaps) + [base] && rented == old(rented)
        invariant pushed == p * config.statesPerPage <= |states| && freelist == old(freelist) + states[..pushed]
      {
        var pagePtr := base + p * config.pageSize;
        ghost var first := pushed;
        for s := 0 to config.statesPerPage
          invariant mmaps == old(mmaps) + [base] && rented == old(rented)
          invariant pushed == first + s <= |states| && freelist == old(freelist) + states[..pushed]
        {
          PushedNext(config, base, p, s);
          var statePtr := pagePtr + s * config.stateSize;
          freelist := freelist + [statePtr];
          pushed := pushed + 1;
        }
        Wrap(p, config.statesPerPage);
      }
      AllPushed(config, base);
      assert states[..pushed] == states;
      Grown(config, old(mmaps), base);
      return true;
    }

    /**
     * Takes a state, mapping a block if there is none: it was free before or belongs to the new
     * block. It fails only if there was no free state and no block to be had.
     */
    method Get(page: Option<nat>) returns (r: Rent)
      requires Valid() && Fresh(config, mmaps, page)
      modifies this
      ensures Valid()
      ensures r.Granted? ==> rented == old(rented) + multiset{r.ptr}
      ensures old(freelist) != [] ==>
              r == Granted(old(freelist)[0]) && freelist == old(freelist)[1..] && mmaps == old(mmaps)
      ensures old(freelist) == [] && page.Some? ==>
                var states := config.BlockStates(page.value);
                |states| > 0 && r == Granted(states[0]) && freelist == states[1..] && mmaps == old(mmaps) + [page.value]
      ensures old(freelist) == [] && page.None? ==>
                r == Failed(AllocationFailure) && freelist == [] && mmaps == old(mmaps) && rented == old(rented)
    {
      if freelist != [] {
        r := Pop();
        return;
      }
      ghost var n := |config.BlockStates(if page.Some? then page.value else 0)|;
      assert n > 0 by { Stretch(config.pagesPerBlock, config.statesPerPage); }
      while freelist == []
        invariant Valid() && rented == old(rented)
        invariant freelist == [] ==> mmaps == old(mmaps)
        invariant freelist != [] ==>
                  page.Some? && freelist == config.BlockStates(page.value) && mmaps == old(mmaps) + [page.value]
        decreases freelist == []
      {
        var ok := Grow(page);
        if !ok { return Failed(AllocationFailure); }
        assert freelist == config.BlockStates(page.value);
      }
      r := Pop();
    }

    method Pop() returns (r: Rent)
      requires Valid() && freelist != []
      modifies this`freelist, this`rented
      ensures Valid() && r == Granted(old(freelist)[0]) && freelist == old(freelist)[1..]
      ensures rented == old(rented) + multiset{old(freelist)[0]}
    {
      assert freelist == [freelist[0]] + freelist[1..];
      r := Granted(freelist[0]);
      rented := rented + multiset{freelist[0]};
      freelist := freelist[1..];
    }

    /** Puts a pointer into the free list, whatever it is; a rented state goes back where it belongs. */
    method Recycle(ptr: nat)
      modifies this`freelist, this`rented
      ensures freelist == old(freelist) + [ptr] && rented == old(rented) - multiset{ptr}
      ensures old(Valid()) && ptr in old(rented) ==> Valid()
    {
      freelist := freelist + [ptr];
      rented := rented - multiset{ptr};
    }

    /**
     * `Drop`: counts what is in the free list and unmaps the blocks. The count is the expected one
     * exactly when every state is back, unless something was recycled that had not been rented.
     */
    method Drop() returns (balanced: bool, unmapped: seq<nat>)
      modifies this
      ensures balanced <==> |old(freelist)| == config.StatesPerBlock() * |old(mmaps)|
      ensures old(Valid()) ==> (balanced <==> old(rented) == multiset{})
      ensures unmapped == old(mmaps) && mmaps == [] && freelist == []
    {
      var counter := 0;
      while freelist != []
        invariant counter + |freelist| == |old(freelist)|
        invariant mmaps == old(mmaps)
        decreases |freelist|
      {
        freelist := freelist[1..];
        counter := counter + 1;
      }
      balanced := counter == config.pagesPerBlock * config.statesPerPage * |mmaps|;
      if old(Valid()) { Counted(config, mmaps, old(freelist), old(rented)); }
      unmapped := mmaps;
      mmaps := [];
    }
  }

  /** A state rented from a pool, until it is dropped. */
  class LocalState {
    const pool: Pool
    const state: nat

    ghost predicate Valid()
      reads pool
    {
      pool.Valid() && state in pool.rented
    }

    constructor (pool: Pool, state: nat)
      ensures this.pool == pool && this.state == state
    {
      this.pool, this.state := pool, state;
    }

    /** `LocalState::new`; what it rents, no other local state of the pool has. */
    static method Open(pool: Pool, page: Option<nat>) returns (local: LocalState?)
      requires pool.Valid() && Fresh(pool.config, pool.mmaps, page)
      modifies pool
      ensures pool.Valid()
      ensures local != null ==>
              fresh(local) && local.pool == pool && local.Valid()
              && pool.rented == old(pool.rented) + multiset{local.state}
      ensures local != null ==>
                forall other | other in old(pool.rented) :: Separate(local.state, other, pool.config.stateSize)
      ensures local == null <==> old(pool.freelist) == [] && page.None?
      ensures local == null ==> pool.rented == old(pool.rented)
    {
      var r := pool.Get(page);
      if r.Failed? { return null; }
      local := new LocalState(pool, r.ptr);
      forall other | other in old(pool.rented) ensures Separate(r.ptr, other, pool.config.stateSize) {
        RentedApart(pool.config, pool.mmaps, pool.freelist, old(pool.rented), r.ptr, other);
      }
    }

    /** `Drop for LocalState`. */
    method Drop()
      requires Valid()
      modifies pool
      ensures pool.Valid() && pool.freelist == old(pool.freelist) + [state]
              && pool.rented == old(pool.rented) - multiset{state}
    {
      pool.Recycle(state);
    }
  }

  /** Two members of a sequence are at two places of it. */
  lemma TwoPlaces(s: seq<nat>, p: nat, q: nat) returns (i: nat, j: nat)
    requires multiset{p} + multiset{q} <= multiset(s)
    ensures i < |s| && j < |s| && i != j && s[i] == p && s[j] == q
  {
    assert p in multiset(s);
    i :| i < |s| && s[i] == p;
    var rest := s[..i] + s[i + 1..];
    assert s == s[..i] + [p] + s[i + 1..];
    assert multiset(s) == multiset(rest) + multiset{p};
    assert (multiset{p} + multiset{q})[q] <= multiset(s)[q];
    assert q in multiset(rest);
    var l: nat :| l < |rest| && rest[l] == q;
    j := if l < i then l else l + 1;
  }

  /** Two states of the mapped blocks do not overlap. */
  lemma MembersApart(config: Config, mmaps: seq<nat>, p: nat, q: nat)
    requires Mapped(config, mmaps) && multiset{p} + multiset{q} <= multiset(config.States(mmaps))
    ensures Separate(p, q, config.stateSize)
  {
    hide Config.States, Mapped;
    var i, j := TwoPlaces(config.States(mmaps), p, q);
    if i < j { StatesApart(config, mmaps, i, j); } else { StatesApart(config, mmaps, j, i); }
  }

  lemma RentedApart(config: Config, mmaps: seq<nat>, free: seq<nat>, rented: multiset<nat>, p: nat, q: nat)
    requires Mapped(config, mmaps) && q in rented
    requires multiset(free) + (rented + multiset{p}) == multiset(config.States(mmaps))
    ensures Separate(p, q, config.stateSize)
  {
    hide Config.States, Mapped;
    assert multiset{p} + multiset{q} <= multiset(free) + (rented + multiset{p});
    MembersApart(config, mmaps, p, q);
  }

  lemma Counted(config: Config, mmaps: seq<nat>, free: seq<nat>, rented: multiset<nat>)
    requires config.Valid() && multiset(free) + rented == multiset(config.States(mmaps))
    ensures |free| == config.pagesPerBlock * config.statesPerPage * |mmaps| <==> rented == multiset{}
  {
    hide Config.States;
    var states := config.States(mmaps);
    assert |multiset(free) + rented| == |multiset(states)|;
    StateCount(config, mmaps);
  }

  lemma StateCount(config: Config, mmaps: seq<nat>)
    requires config.Valid()
    ensures |config.States(mmaps)| == config.pagesPerBlock * config.statesPerPage * |mmaps|
  {
    hide Config.States;
    var states := |config.States(mmaps)|;
    assert states == |mmaps| * config.StatesPerBlock();
  }

  lemma AllPushed(config: Config, base: nat)
    requires config.Valid()
    ensures |config.BlockStates(base)| == config.pagesPerBlock * config.statesPerPage
  {
  }

  lemma PushedNext(config: Config, base: nat, p: nat, s: nat)
    requires config.Valid() && p < config.pagesPerBlock && s < config.statesPerPage
    ensures var states := config.BlockStates(base);
            var j := p * config.statesPerPage + s;
            && j + 1 <= (p + 1) * config.statesPerPage <= |states|
            && states[..j + 1] == states[..j] + [base + p * config.pageSize + s * config.stateSize]
  {
    var n, j := config.statesPerPage, p * config.statesPerPage + s;
    Further(p, config.pagesPerBlock, n);
    Wrap(p, n);
    AllPushed(config, base);
    assert config.BlockStates(base)[j] == config.StateAt(base, j);
    StateAddress(config, base, p, s);
  }

  lemma StateAddress(config: Config, base: nat, p: nat, s: nat)
    requires s < config.statesPerPage
    ensures config.StateAt(base, p * config.statesPerPage + s) == base + p * config.pageSize + s * config.stateSize
  {
    Quotient(p * config.statesPerPage + s, p, config.statesPerPage, s);
  }

  lemma Grown(config: Config, mmaps: seq<nat>, base: nat)
    requires config.Valid()
    ensures config.States(mmaps + [base]) == config.States(mmaps) + config.BlockStates(base)
  {
    assert (mmaps + [base])[..|mmaps|] == mmaps;
  }
}
