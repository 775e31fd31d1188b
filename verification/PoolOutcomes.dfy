/** What a `get` ends with, and in which order the pool hands out states. */
module PoolOutcomes {
  import opened Wrappers
  import opened PoolRuns
  import opened PoolTheorems

  // ---------- how a `get` ends ----------

  /** Client `i` asks for a block and gets none. */
  ghost predicate MapFails(s: State, a: Action, i: nat) {
    i < |s.clients| && s.clients[i].MapBlock? && a == Step(i, None)
  }

  /** Client `i` finds the free list empty, inside or outside the lock. */
  ghost predicate Misses(s: State, a: Action, i: nat, inside: bool) {
    && i < |s.clients| && (if inside then s.clients[i].PopInside? else s.clients[i].PopOutside?)
    && a.Step? && a.client == i && s.freelist == []
  }

  /** Client `i` takes `ptr` from the front of the free list. */
  ghost predicate Pops(s: State, a: Action, s': State, i: nat, ptr: nat) {
    && i < |s.clients| && (s.clients[i].PopInside? || s.clients[i].PopOutside?)
    && a.Step? && a.client == i && s.freelist == [ptr] + s'.freelist
  }

  ghost predicate Failed(states: seq<State>, actions: seq<Action>, k: nat, l: nat, i: nat) {
    exists j: nat :: k <= j < l && j < |states| && j < |actions| && MapFails(states[j], actions[j], i)
  }

  ghost predicate Missed(states: seq<State>, actions: seq<Action>, k: nat, l: nat, i: nat, inside: bool) {
    exists j: nat :: k <= j < l && j < |states| && j < |actions| && Misses(states[j], actions[j], i, inside)
  }

  ghost predicate Popped(states: seq<State>, actions: seq<Action>, k: nat, l: nat, i: nat, ptr: nat) {
    exists j: nat :: k <= j < l && j + 1 < |states| && j < |actions|
                     && Pops(states[j], actions[j], states[j + 1], i, ptr)
  }

  /** What client `i` is about to end with is decided by what it met since state `k`. */
  ghost predicate Accounted(states: seq<State>, actions: seq<Action>, k: nat, l: nat, i: nat) {
    && l < |states| && i < |states[l].clients|
    && var c := states[l].clients[i];
    && (Failed(states, actions, k, l, i) <==> c == Leave(None) || c.Idle?)
    && (c.Holding? ==> Popped(states, actions, k, l, i, c.ptr))
    && (c.Leave? && c.got.Some? ==> Popped(states, actions, k, l, i, c.got.value))
    && (c.WaitLock? || InLock(c) || c.Idle? ==> Missed(states, actions, k, l, i, false))
    && (c.MapBlock? || c.Pushing? || c == Leave(None) || c.Idle? ==> Missed(states, actions, k, l, i, true))
  }

  lemma Later(states: seq<State>, actions: seq<Action>, k: nat, l: nat, i: nat)
    requires k <= l < |actions|
    ensures Failed(states, actions, k, l, i) ==> Failed(states, actions, k, l + 1, i)
    ensures forall inside :: Missed(states, actions, k, l, i, inside) ==> Missed(states, actions, k, l + 1, i, inside)
    ensures forall ptr :: Popped(states, actions, k, l, i, ptr) ==> Popped(states, actions, k, l + 1, i, ptr)
  {
  }

  /** Only its own failure is a failure of client `i`. */
  lemma NotLater(states: seq<State>, actions: seq<Action>, k: nat, l: nat, i: nat)
    requires k <= l < |actions| && |states| == |actions| + 1 && Failed(states, actions, k, l + 1, i)
    ensures Failed(states, actions, k, l, i) || MapFails(states[l], actions[l], i)
  {
  }

  lemma AccountedStep(states: seq<State>, actions: seq<Action>, k: nat, l: nat, i: nat)
    requires IsRun(states, actions) && k <= l < |actions| && Accounted(states, actions, k, l, i)
    requires InGet(states[l].clients[i])
    ensures Accounted(states, actions, k, l + 1, i)
  {
    hide Failed, Missed, Popped, Initial, Rented;
    var s, a, s' := states[l], actions[l], states[l + 1];
    Later(states, actions, k, l, i);
    if Failed(states, actions, k, l + 1, i) { NotLater(states, actions, k, l, i); }
    if MapFails(s, a, i) { FailsNow(states, actions, k, l, i); }
    if a.client == i {
      if Misses(s, a, i, false) { MissesNow(states, actions, k, l, i, false); }
      if Misses(s, a, i, true) { MissesNow(states, actions, k, l, i, true); }
      if (s.clients[i].PopOutside? || s.clients[i].PopInside?) && s.freelist != [] {
        assert s.freelist == [s.freelist[0]] + s'.freelist;
        PopsNow(states, actions, k, l, i, s.freelist[0]);
      }
    }
  }

  lemma FailsNow(states: seq<State>, actions: seq<Action>, k: nat, l: nat, i: nat)
    requires k <= l < |actions| && l < |states| && MapFails(states[l], actions[l], i)
    ensures Failed(states, actions, k, l + 1, i)
  {
  }

  lemma MissesNow(states: seq<State>, actions: seq<Action>, k: nat, l: nat, i: nat, inside: bool)
    requires k <= l < |actions| && l < |states| && Misses(states[l], actions[l], i, inside)
    ensures Missed(states, actions, k, l + 1, i, inside)
  {
  }

  lemma PopsNow(states: seq<State>, actions: seq<Action>, k: nat, l: nat, i: nat, ptr: nat)
    requires k <= l < |actions| && l + 1 < |states| && Pops(states[l], actions[l], states[l + 1], i, ptr)
    ensures Popped(states, actions, k, l + 1, i, ptr)
  {
  }

  lemma {:induction false} GetAccounted(states: seq<State>, actions: seq<Action>, k: nat, l: nat, i: nat)
    requires IsRun(states, actions) && k <= l < |states|
    requires i < |states[k].clients| && states[k].clients[i].PopOutside?
    requires forall j: nat | k <= j < l :: i < |states[j].clients| && InGet(states[j].clients[i])
    ensures Accounted(states, actions, k, l, i)
  {
    hide Accounted;
    if k < l {
      GetAccounted(states, actions, k, l - 1, i);
      AccountedStep(states, actions, k, l - 1, i);
    } else {
      NothingYet(states, actions, k, i);
    }
  }

  lemma NothingYet(states: seq<State>, actions: seq<Action>, k: nat, i: nat)
    requires k < |states| && i < |states[k].clients| && states[k].clients[i].PopOutside?
    ensures Accounted(states, actions, k, k, i)
  {
  }

  /**
   * The outcome of a `get` that began at state `k` and has ended at state `l`. It fails if and only if
   * it asked for a block and got none, which it does only after it has found the free list empty both
   * outside and inside the lock. Otherwise it holds what was at the front of the free list when it
   * popped; and it goes for the lock only after it has found the list empty.
   */
  lemma GetOutcome(states: seq<State>, actions: seq<Action>, k: nat, l: nat, i: nat)
    requires IsRun(states, actions) && k < l < |states|
    requires i < |states[k].clients| && states[k].clients[i].PopOutside?
    requires forall j: nat | k <= j < l :: i < |states[j].clients| && InGet(states[j].clients[i])
    requires i < |states[l].clients| && !InGet(states[l].clients[i])
    ensures states[l].clients[i].Idle? || states[l].clients[i].Holding?
    ensures states[l].clients[i].Idle? <==>
            exists j: nat :: k <= j < l && states[j].clients[i].MapBlock? && actions[j] == Step(i, None)
    ensures states[l].clients[i].Idle? ==>
              Missed(states, actions, k, l, i, false) && Missed(states, actions, k, l, i, true)
    ensures states[l].clients[i].Holding? ==> Popped(states, actions, k, l, i, states[l].clients[i].ptr)
    ensures forall j: nat | k <= j < l && !states[j].clients[i].PopOutside? :: Missed(states, actions, k, j, i, false)
  {
    hide Missed, Popped, Next, Initial;
    GetAccounted(states, actions, k, l, i);
    if j: nat :| k <= j < l && states[j].clients[i].MapBlock? && actions[j] == Step(i, None) {
      FailsNow(states, actions, k, j, i);
      FailedStays(states, actions, k, j + 1, l, i);
    }
    forall j: nat | k <= j < l && !states[j].clients[i].PopOutside? ensures Missed(states, actions, k, j, i, false) {
      GetAccounted(states, actions, k, j, i);
    }
  }

  lemma FailedStays(states: seq<State>, actions: seq<Action>, k: nat, j: nat, l: nat, i: nat)
    requires j <= l && Failed(states, actions, k, j, i)
    ensures Failed(states, actions, k, l, i)
  {
  }

  // ---------- the free list is a queue ----------

  /** What the step puts at the end of the free list. */
  function Puts(s: State, a: Action): seq<nat>
    requires a.client < |s.clients| && s.config.statesPerPage > 0
  {
    match s.clients[a.client]
    case Holding(ptr) => if a.Drop? then [ptr] else []
    case Pushing(page, pushed) =>
      if a.Step? && pushed < s.config.StatesPerBlock() then [s.config.StateAt(page, pushed)] else []
    case _ => []
  }

  /** What the step hands to its client. */
  function Hands(s': State, a: Action, s: State): seq<nat>
    requires a.client < |s.clients| && a.client < |s'.clients|
  {
    match s'.clients[a.client]
    case Holding(ptr) => if s.clients[a.client].PopOutside? then [ptr] else []
    case Leave(Some(ptr)) => if s.clients[a.client].PopInside? then [ptr] else []
    case _ => []
  }

  ghost function AllPuts(states: seq<State>, actions: seq<Action>, k: nat): seq<nat>
    requires IsRun(states, actions) && k < |states|
  {
    if k == 0 then [] else AllPuts(states, actions, k - 1) + Puts(states[k - 1], actions[k - 1])
  }

  ghost function AllHands(states: seq<State>, actions: seq<Action>, k: nat): seq<nat>
    requires IsRun(states, actions) && k < |states|
  {
    if k == 0 then [] else AllHands(states, actions, k - 1) + Hands(states[k], actions[k - 1], states[k - 1])
  }

  lemma Regroup(puts: seq<nat>, hands: seq<nat>, free: seq<nat>, put: seq<nat>, hand: seq<nat>, free': seq<nat>)
    requires puts == hands + free && free + put == hand + free'
    ensures puts + put == (hands + hand) + free'
  {
    calc {
      puts + put;
      hands + (free + put);
      hands + (hand + free');
      (hands + hand) + free';
    }
  }

  /** First in, first out: what has been handed out is what has been put in, in its order, up to what is left. */
  lemma {:induction false} FreeListFifo(states: seq<State>, actions: seq<Action>, k: nat)
    requires IsRun(states, actions) && k < |states|
    ensures AllPuts(states, actions, k) == AllHands(states, actions, k) + states[k].freelist
  {
    hide Rented, Next, Puts, Hands;
    if k > 0 {
      var s, a, s' := states[k - 1], actions[k - 1], states[k];
      FreeListFifo(states, actions, k - 1);
      assert Enabled(s, a) && s.config.Valid() && s' == Next(s, a);
      FifoStep(s, a);
      Regroup(AllPuts(states, actions, k - 1), AllHands(states, actions, k - 1), s.freelist,
              Puts(s, a), Hands(s', a, s), s'.freelist);
    }
  }

  lemma FifoStep(s: State, a: Action)
    requires Enabled(s, a) && s.config.Valid()
    ensures |Next(s, a).clients| == |s.clients|
    ensures s.freelist + Puts(s, a) == Hands(Next(s, a), a, s) + Next(s, a).freelist
  {
    hide Rented;
  }
}
