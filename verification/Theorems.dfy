/** What every run of the lock guarantees, for any number of requests on any number of stack slots. */
module Theorems {
  import opened Wrappers
  import opened Atomics
  import opened Machine
  import opened Invariant
  import opened Steps
  import opened OwnerSteps
  import opened CursorSteps
  import opened Progression
  import opened Runs
  import opened Effects
  import opened Order
  import opened Progress
  import opened Access

  /** A run: the states passed through, and the steps between them. */
  ghost predicate IsRun(states: seq<State>, actions: seq<Action>) {
    && |states| == |actions| + 1
    && Initial(states[0])
    && forall k: nat | k < |actions| :: Enabled(states[k], actions[k]) && states[k + 1] == Next(states[k], actions[k])
  }

  ghost predicate Good(s: State) {
    Inv(s) && InOrder(s) && NoBypass(s) && NoLostWake(s)
  }

  lemma InitialGood(s: State)
    requires Initial(s)
    ensures Good(s)
  {
    InitialOk(s);
  }

  lemma NextGood(s: State, a: Action)
    requires Good(s) && Enabled(s, a)
    ensures Good(Next(s, a))
  {
    hide Inv, InOrder, NoBypass, NoLostWake, Next;
    NextOk(s, a);
    InOrderOk(s, a);
    NoBypassOk(s, a);
    NoLostWakeOk(s, a);
  }

  lemma {:induction false} RunGood(states: seq<State>, actions: seq<Action>, k: nat)
    requires IsRun(states, actions) && k < |states|
    ensures Good(states[k])
  {
    hide Good, Next, Initial;
    if k == 0 {
      InitialGood(states[0]);
    } else {
      RunGood(states, actions, k - 1);
      NextGood(states[k - 1], actions[k - 1]);
    }
  }

  lemma {:induction false} RunKept(states: seq<State>, actions: seq<Action>, k: nat, l: nat)
    requires IsRun(states, actions) && k <= l < |states|
    ensures Kept(states[k], states[l])
    decreases l - k
  {
    hide Next, Initial, InOrder, NoBypass, NoLostWake, Inv;
    RunGood(states, actions, k);
    if k == l {
      Core(states[k]);
    } else {
      RunKept(states, actions, k + 1, l);
      NextKept(states[k], actions[k]);
      KeptTransitive(states[k], states[k + 1], states[l]);
    }
  }

  // ---------- linearizability ----------

  /**
   * The log is a sequential execution of the closures on the initial memory: the protected memory
   * is what it leaves behind, and every closure occurs in it at most once.
   */
  ghost predicate Sequential(s: State) {
    && s.mem == Replay(s.h.init, s.h.log)
    && (forall p: nat | p < |s.h.log| ::
          && s.h.log[p].rid < |s.h.calls|
          && s.h.log[p].task == s.h.calls[s.h.log[p].rid].task
          && s.h.log[p].out == OutcomeAt(s.h.init, s.h.log, p))
    && (forall p: nat, q: nat | p < q < |s.h.log| :: s.h.log[p].rid != s.h.log[q].rid)
  }

  /** Request `r` takes effect at place `p` of the log, between its call and its return, and answers what it did. */
  ghost predicate TakesEffectAt(s: State, r: nat, p: nat)
    requires r < |s.h.calls|
  {
    var c := s.h.calls[r];
    && p < |s.h.log| && s.h.log[p].rid == r && c.born <= p
    && (c.ret.Some? ==>
          && p < c.ret.value.at
          && (c.ret.value.answer.Got? ==> c.ret.value.answer.out == OutcomeAt(s.h.init, s.h.log, p)))
  }

  lemma SequentialOk(s: State)
    requires Inv(s)
    ensures Sequential(s)
  {
    hide Inv;
    Core(s);
    forall p: nat | p < |s.h.log|
      ensures s.h.log[p].rid < |s.h.calls|
           && s.h.log[p].task == s.h.calls[s.h.log[p].rid].task
           && s.h.log[p].out == OutcomeAt(s.h.init, s.h.log, p)
    {
      LogEntry(s, p);
    }
    forall p: nat, q: nat | p < q < |s.h.log| ensures s.h.log[p].rid != s.h.log[q].rid {
      LogEntry(s, p);
      LogEntry(s, q);
    }
  }

  lemma LogEntry(s: State, p: nat)
    requires Inv(s) && p < |s.h.log|
    ensures LogOk(s, p)
  {
  }

  /**
   * Linearizability. A request that got an outcome took effect at one place of the sequential
   * execution, after its call and before its return, with exactly that outcome. A request that
   * was denied took no effect, or panicked when it did.
   */
  lemma Linearizable(states: seq<State>, actions: seq<Action>, k: nat, r: nat)
    requires IsRun(states, actions) && k < |states| && r < |states[k].h.calls|
    ensures Sequential(states[k]) && states[k].h.init == states[0].mem
    ensures var c := states[k].h.calls[r];
            c.ret.Some? ==>
              && !c.ret.value.answer.Garbage?
              && (c.ret.value.answer.Got? || states[k].mode == NoStd)
              && (c.run.Some? ==> TakesEffectAt(states[k], r, c.run.value))
              && (c.run.None? ==> c.ret.value.answer.Denied?)
              && (c.ret.value.answer.Denied? && c.run.Some? ==>
                 OutcomeAt(states[k].h.init, states[k].h.log, c.run.value).Panicked?)
  {
    hide Good, Next, Inv;
    RunGood(states, actions, k);
    RunKept(states, actions, 0, k);
    var s := states[k];
    assert Inv(s) by { assert Good(s); InvOf(s); }
    SequentialOk(s);
    Recorded(s, r);
  }

  lemma InvOf(s: State)
    requires Good(s)
    ensures Inv(s) && InOrder(s) && NoBypass(s) && NoLostWake(s)
  {
  }

  /** If one request returned before another was called, it took effect first. */
  lemma RealTimeOrder(states: seq<State>, actions: seq<Action>, j: nat, k: nat, r: nat, q: nat)
    requires IsRun(states, actions) && j <= k < |states|
    requires r < |states[j].h.calls| <= q < |states[k].h.calls| && states[j].h.calls[r].ret.Some?
    requires states[k].h.calls[r].run.Some? && states[k].h.calls[q].run.Some?
    ensures states[k].h.calls[r].run.value < states[k].h.calls[q].run.value
  {
    hide Good, Next, Inv;
    BornLater(states, actions, j, k, q);
    RunGood(states, actions, j);
    RunGood(states, actions, k);
    RunKept(states, actions, j, k);
    InvOf(states[j]);
    InvOf(states[k]);
    Recorded(states[j], r);
    Recorded(states[k], q);
  }

  /** A request called after state `j` starts with at least the log of state `j`. */
  lemma {:induction false} BornLater(states: seq<State>, actions: seq<Action>, j: nat, k: nat, q: nat)
    requires IsRun(states, actions) && j <= k < |states|
    requires |states[j].h.calls| <= q < |states[k].h.calls|
    ensures states[k].h.calls[q].born >= |states[j].h.log|
    decreases k - j
  {
    hide Good, Inv, Next;
    RunGood(states, actions, k - 1);
    InvOf(states[k - 1]);
    NextKept(states[k - 1], actions[k - 1]);
    RunKept(states, actions, j, k - 1);
    if q < |states[k - 1].h.calls| {
      BornLater(states, actions, j, k - 1, q);
    } else {
      NewRequest(states[k - 1], actions[k - 1], q);
    }
  }

  lemma NewRequest(s: State, a: Action, q: nat)
    requires Inv(s) && Enabled(s, a) && |s.h.calls| <= q < |Next(s, a).h.calls|
    ensures q == |s.h.calls| && a.Call? && Next(s, a).h.calls[q].born == |s.h.log|
  {
    hide Inv;
    if !a.Call? { NoNewRequest(s, a); }
  }

  lemma NoNewRequest(s: State, a: Action)
    requires Inv(s) && Enabled(s, a) && !a.Call?
    ensures |Next(s, a).h.calls| == |s.h.calls|
  {
    hide Inv;
    SoundOk(s, a.slot);
    if a.Step? && s.frames[a.slot].pc.Combine? && s.frames[a.slot].pc.op.Promote? {
      SuccessorFacts(s, a.slot, s.frames[a.slot].pc.op.heir);
    }
  }

  // ---------- node lifetime ----------

  /** Slot `n` still holds the request that was swapped into the tail at place `i`, and it cannot return yet. */
  ghost predicate LivesAt(s: State, n: nat, i: nat) {
    && i < |s.h.line| == |s.h.marks| && n < |s.frames| && s.h.line[i].slot == n
    && InLine(s.frames[n]) && s.frames[n].pos == i && s.frames[n].rid == s.h.line[i].rid
    && !s.h.marks[i].Settled?
    && s.frames[n].rid < |s.h.calls| && s.h.calls[s.frames[n].rid].ret.None?
  }

  /** The place of the queue that the next step of slot `t` is about. */
  ghost function Target(s: State, t: nat): int
    requires t < |s.frames|
  {
    match s.frames[t].pc
    case Link(_) => s.frames[t].pos - 1
    case Combine(_, Promote(_)) => s.h.front
    case Combine(_, _) => s.h.front - 1
    case Bomb(_, _, _) => s.h.front - 1
    case Last(c, _) => if c < |s.frames| then s.frames[c].pos else -1
    case _ => -1
  }

  /**
   * No step dereferences a node whose owner has returned, or a node that has been put in its
   * slot since: the node is that of the request at the very place the step is about.
   */
  lemma NodeLifetime(states: seq<State>, actions: seq<Action>, k: nat, n: nat)
    requires IsRun(states, actions) && k < |actions| && actions[k].Step?
    requires actions[k].slot < |states[k].frames| && n in Touches(states[k].frames[actions[k].slot].pc)
    ensures Target(states[k], actions[k].slot) >= 0
    ensures LivesAt(states[k], n, Target(states[k], actions[k].slot))
  {
    hide Good, Next, Inv;
    RunGood(states, actions, k);
    InvOf(states[k]);
    TouchedLives(states[k], actions[k].slot, n);
  }

  lemma TouchedLives(s: State, t: nat, n: nat)
    requires Inv(s) && t < |s.frames| && n in Touches(s.frames[t].pc)
    ensures Target(s, t) >= 0 && LivesAt(s, n, Target(s, t))
  {
    hide Inv;
    match s.frames[t].pc
    case Link(prev) =>
      PredecessorAlive(s, t, prev);
      RequestFacts(s, prev);
      assert IdentityOk(s, prev) by { Facts(s, prev); }
    case Combine(c, op) =>
      CursorFacts(s, t);
      if op.Promote? { SuccessorFacts(s, t, n); }
      RequestFacts(s, n);
      assert IdentityOk(s, n) by { Facts(s, n); }
    case Last(c, _) => CursorFacts(s, t); RequestFacts(s, n); assert IdentityOk(s, n) by { Facts(s, n); }
    case Bomb(c, _, _) => CursorFacts(s, t); RequestFacts(s, n); assert IdentityOk(s, n) by { Facts(s, n); }
  }

  /**
   * The same without the table: if a step changes the memory of another slot, or would have gone
   * differently with other memory there, then that memory is the node of the request at the place
   * the step is about, which has not returned.
   */
  lemma NoStrayAccess(states: seq<State>, actions: seq<Action>, k: nat, n: nat, other: Frame)
    requires IsRun(states, actions) && k < |actions| && actions[k].Step?
    requires n < |states[k].frames| && n != actions[k].slot < |states[k].frames|
             && SameThread(states[k].frames[n], other)
    requires n < |states[k + 1].frames|
    requires !SameMemory(states[k].frames[n], states[k + 1].frames[n])
             || !SameElsewhere(states[k + 1], Next(states[k].(frames := states[k].frames[n := other]), actions[k]), n)
    ensures Target(states[k], actions[k].slot) >= 0
    ensures LivesAt(states[k], n, Target(states[k], actions[k].slot))
  {
    hide Good, Next, Inv, SameMemory, SameElsewhere, SameThread, Touches, LivesAt, Target;
    var s, t := states[k], actions[k].slot;
    RunGood(states, actions, k);
    InvOf(s);
    if n in Touches(s.frames[t].pc) {
      NodeLifetime(states, actions, k, n);
    } else if SameMemory(s.frames[n], states[k + 1].frames[n]) {
      ReadsOnly(s, t, n, other);
    } else {
      WritesOnly(s, t, n);
    }
  }

  // ---------- first in, first out ----------

  /** The executed places are a prefix of all tail swaps, in their order, across closed chains and hand-overs. */
  lemma Fifo(states: seq<State>, actions: seq<Action>, k: nat)
    requires IsRun(states, actions) && k < |states|
    ensures InOrder(states[k])
  {
    hide Next, Inv, NoBypass, NoLostWake;
    RunGood(states, actions, k);
  }

  /** While the lock is not poisoned, the tail is closed only when every node of the chain has executed. */
  lemma CloseOnlyWhenDone(states: seq<State>, actions: seq<Action>, k: nat)
    requires IsRun(states, actions) && k < |actions| && states[k].raw.status != Dead
    requires states[k].raw.tail.Some? && states[k + 1].raw.tail.None?
    ensures states[k].h.done == |states[k].h.line|
  {
    hide Good, Inv;
    var s, a := states[k], actions[k];
    RunGood(states, actions, k);
    InvOf(s);
    ClosingStep(s, a);
  }

  lemma ClosingStep(s: State, a: Action)
    requires Inv(s) && Enabled(s, a) && s.raw.status != Dead && s.raw.tail.Some? && Next(s, a).raw.tail.None?
    ensures s.h.done == |s.h.line|
  {
    hide Inv, DoWait;
    Core(s);
    Mood(s, a.slot);
    match s.frames[a.slot].pc
    case Combine(c, op) =>
      if op.Close? && s.raw.tail == Some(c) { ShutFacts(s, a.slot, c, Last(c, Release)); }
    case Bomb(c, op, why) => if !op.Poison? { DeadBomb(s, a.slot); }
    case Wait(op) => WaitRaw(s, a.slot, op);
    case _ =>
  }

  /** A bomb that has stored POISONED acts on a dead lock. */
  lemma DeadBomb(s: State, t: nat)
    requires Inv(s) && t < |s.frames| && s.frames[t].pc.Bomb? && !s.frames[t].pc.bomb.Poison?
    ensures s.raw.status == Dead
  {
    hide Inv;
    assert RoleOk(s, t) by { Facts(s, t); }
  }

  lemma WaitRaw(s: State, t: nat, op: WaitOp)
    requires t < |s.frames|
    ensures DoWait(s, t, op).raw == s.raw
  {
  }

  // ---------- ownership ----------

  /**
   * Mutual exclusion. The lock word says LOCKED exactly when somebody owns the lock, nobody shares
   * it, closures run only under it and on memory that nobody else has changed since they started,
   * and at most one request races for it.
   */
  lemma Ownership(states: seq<State>, actions: seq<Action>, k: nat, t: nat, u: nat)
    requires IsRun(states, actions) && k < |states| && t < |states[k].frames| && u < |states[k].frames|
    ensures var s := states[k];
            && (Owns(s.frames[t]) && Owns(s.frames[u]) ==> t == u)
            && (Owns(s.frames[t]) ==> s.raw.status == Locked)
            && (s.raw.status == Locked ==> exists o: nat :: o < |s.frames| && Owns(s.frames[o]))
            && (s.frames[t].pc.Fast? && s.frames[t].pc.fast.FastRun? ==>
               Owns(s.frames[t]) && s.frames[t].pc.fast.seen == s.mem)
            && (Executing(s.frames[t].pc) ==> Owns(s.frames[t]) && s.frames[t].pc.op.seen == s.mem)
            && (s.frames[t].pc.Acquire? && s.frames[u].pc.Acquire? ==> t == u)
  {
    hide Good, Next, Inv;
    var s := states[k];
    RunGood(states, actions, k);
    InvOf(s);
    Core(s);
    Facts(s, t);
    Facts(s, u);
    if s.frames[t].pc.Acquire? { RacerFacts(s, t); }
  }

  // ---------- waiting ----------

  /**
   * No lost wake-up. A parked thread's word is SLEEPING, or some thread is about to make a kernel
   * wake on its address. However it is woken, it stops waiting only with a message in its word.
   */
  lemma NoLostWakeUp(states: seq<State>, actions: seq<Action>, k: nat, t: nat)
    requires IsRun(states, actions) && k < |states| && t < |states[k].frames|
    ensures states[k].frames[t].pc == Wait(Parked) && states[k].frames[t].word != Sleeping ==>
              exists u: nat :: u < |states[k].frames| && Waker(states[k].frames[u].pc) == Some(t)
    ensures k < |actions| && t < |states[k + 1].frames|
            && states[k].frames[t].pc.Wait? && !states[k + 1].frames[t].pc.Wait? ==>
              var word := states[k].frames[t].word;
              && (states[k + 1].frames[t].pc == Return(Finished) ==> word == Done)
              && (states[k + 1].frames[t].pc == Return(Cancelled) ==> word == Poisoned)
              && (states[k + 1].frames[t].pc == Combine(t, Begin) ==> word == Head)
              && states[k + 1].frames[t].pc in {Return(Finished), Return(Cancelled), Combine(t, Begin)}
  {
    hide Good, Next, Inv;
    var s := states[k];
    RunGood(states, actions, k);
    InvOf(s);
    if k < |actions| && s.frames[t].pc.Wait? {
      var a := actions[k];
      if t != a.slot { OtherSlots(s, a, t); } else { WaitEnds(s, a); }
    }
  }

  /** `attach` leaves its waiting loop with DONE, HEAD or POISONED, as its debug assertion demands. */
  lemma WaitEnds(s: State, a: Action)
    requires Inv(s) && Enabled(s, a) && s.frames[a.slot].pc.Wait?
    ensures |Next(s, a).frames| == |s.frames|
    ensures var pc := Next(s, a).frames[a.slot].pc;
            || pc.Wait?
            || (pc == Return(Finished) && s.frames[a.slot].word == Done)
            || (pc == Return(Cancelled) && s.frames[a.slot].word == Poisoned)
            || (pc == Combine(a.slot, Begin) && s.frames[a.slot].word == Head)
  {
    hide Inv;
    assert WordOk(s, a.slot) by { Facts(s, a.slot); }
  }

  /** The other debug assertion: a combiner that waits for its successor's link sees a tail. */
  lemma SpinsUnderTail(states: seq<State>, actions: seq<Action>, k: nat, t: nat, c: nat)
    requires IsRun(states, actions) && k < |states| && t < |states[k].frames|
             && states[k].frames[t].pc == Combine(c, HandOff)
    ensures states[k].raw.tail.Some?
  {
    hide Good, Next, Inv;
    var s := states[k];
    RunGood(states, actions, k);
    InvOf(s);
    Core(s);
    CursorFacts(s, t);
    Facts(s, t);
  }

  // ---------- bypass ----------

  /**
   * Bounded bypass. Suppose the head of the open chain joined in the step after state `j` and has
   * not started by state `k`. Then every closure that ran in between belongs to a request that at
   * state `j` held the lock on the fast path or had already seen an empty tail.
   */
  lemma BoundedBypass(states: seq<State>, actions: seq<Action>, j: nat, k: nat, p: nat)
    requires IsRun(states, actions) && j < k < |states|
    requires actions[j].Step? && states[j].frames[actions[j].slot].pc.Enqueue? && states[j].raw.tail.None?
    requires states[k].h.start == |states[j].h.line| && HeadWaits(states[k])
    requires |states[j].h.log| <= p < |states[k].h.log|
    ensures exists t: nat :: t < |states[j].frames| && IsEarly(states[j].frames[t].pc)
                             && states[j].frames[t].rid == states[k].h.log[p].rid
  {
    hide Good, Next, Inv;
    EarlyKept(states, actions, j, k);
    RunGood(states, actions, k);
    InvOf(states[k]);
    assert states[k].h.log[p].rid in Early(states[j]);
  }

  /** The head's own history stays as it was while it waits. */
  lemma {:induction false} EarlyKept(states: seq<State>, actions: seq<Action>, j: nat, k: nat)
    requires IsRun(states, actions) && j < k < |states|
    requires actions[j].Step? && states[j].frames[actions[j].slot].pc.Enqueue? && states[j].raw.tail.None?
    requires states[k].h.start == |states[j].h.line| && HeadWaits(states[k])
    ensures states[k].h.early == Early(states[j]) && states[k].h.openedAt == |states[j].h.log|
    decreases k
  {
    hide Good, Inv, Next, Early;
    var s, a := states[k - 1], actions[k - 1];
    RunGood(states, actions, k - 1);
    RunGood(states, actions, j);
    InvOf(s);
    InvOf(states[j]);
    JoinsEmpty(states[j], actions[j]);
    if k - 1 > j {
      RunKept(states, actions, j + 1, k - 1);
      if a.Step? && s.frames[a.slot].pc.Enqueue? && s.raw.tail.None? {
        JoinsEmpty(s, a);
      } else {
        HeadStep(s, a);
        StartKept(s, a);
        EarlyKept(states, actions, j, k - 1);
      }
    }
  }

  lemma JoinsEmpty(s: State, a: Action)
    requires Inv(s) && Enabled(s, a) && a.Step? && s.frames[a.slot].pc.Enqueue? && s.raw.tail.None?
    ensures var s' := Next(s, a);
            && s'.h.start == |s.h.line| && |s'.h.line| == |s.h.line| + 1
            && s'.h.early == Early(s) && s'.h.openedAt == |s.h.log|
  {
    hide Inv;
    Core(s);
  }

  /** While the head waits, the open chain begins where it began. */
  lemma StartKept(s: State, a: Action)
    requires Inv(s) && Enabled(s, a) && HeadWaits(s) && HeadWaits(Next(s, a))
    ensures Next(s, a).h.start == s.h.start
  {
    hide Inv;
    Core(s);
    if a.Step? {
      match s.frames[a.slot].pc
      case Combine(c, op) => HeadStepCombine(s, a.slot, c, op);
      case Bomb(c, op, why) => HeadStepBomb(s, a.slot, c, op, why);
      case _ =>
    }
  }

  // ---------- closures ----------

  /** A request that has returned has given up its closure once: to its execution, or to its cancelled caller. */
  lemma UsedOnce(states: seq<State>, actions: seq<Action>, k: nat, r: nat)
    requires IsRun(states, actions) && k < |states| && r < |states[k].h.calls| && states[k].h.calls[r].ret.Some?
    ensures states[k].h.calls[r].uses == 1
    ensures states[k].mode == Std ==> states[k].h.calls[r].run.Some? && states[k].h.calls[r].ret.value.answer.Got?
  {
    hide Good, Next, Inv;
    RunGood(states, actions, k);
    InvOf(states[k]);
    Recorded(states[k], r);
  }

  // ---------- progress ----------

  /** How many steps from state `k` to state `l` were neither spins nor spurious wakes. */
  ghost function Works(states: seq<State>, actions: seq<Action>, k: nat, l: nat): nat
    requires IsRun(states, actions) && k <= l < |states|
  {
    if k == l then 0
    else Works(states, actions, k, l - 1)
         + (if actions[l - 1].Step? && !Spins(states[l - 1], actions[l - 1].slot) then 1 else 0)
  }

  ghost function Spurs(states: seq<State>, actions: seq<Action>, k: nat, l: nat): nat
    requires IsRun(states, actions) && k <= l < |states|
  {
    if k == l then 0 else Spurs(states, actions, k, l - 1) + (if actions[l - 1].Spurious? then 1 else 0)
  }

  lemma SpuriousRise(s: State, t: nat)
    requires Inv(s) && Enabled(s, Spurious(t))
    ensures Measure(Next(s, Spurious(t))) <= Measure(s) + 2
  {
    hide Inv;
    SumChange(s, Next(s, Spurious(t)), |s.frames|, t, t);
    assert WordOk(s, t) by { Facts(s, t); }
  }

  /**
   * Termination. Without new calls, the threads together make at most as many steps that count as
   * the measure says, and two more for each spurious wake.
   */
  lemma {:induction false} BoundedWork(states: seq<State>, actions: seq<Action>, k: nat, l: nat)
    requires IsRun(states, actions) && k <= l < |states|
    requires forall j: nat | k <= j < l :: !actions[j].Call?
    ensures Works(states, actions, k, l) + Measure(states[l]) <= Measure(states[k]) + 2 * Spurs(states, actions, k, l)
  {
    hide Good, Next, Inv, Measure, Spins;
    if k < l {
      BoundedWork(states, actions, k, l - 1);
      RunGood(states, actions, l - 1);
      InvOf(states[l - 1]);
      match actions[l - 1]
      case Step(t) => StepDrops(states[l - 1], t);
      case Spurious(t) => SpuriousRise(states[l - 1], t);
    }
  }

  /**
   * No deadlock. If no thread can make a step that counts, then every request has returned, every
   * node has been woken for good, and the lock is free (or poisoned) with an empty queue.
   */
  lemma Quiescence(states: seq<State>, actions: seq<Action>, k: nat)
    requires IsRun(states, actions) && k < |states|
    requires forall g: nat :: !CanGo(states[k], g)
    ensures var s := states[k];
            && (forall r: nat | r < |s.h.calls| :: s.h.calls[r].ret.Some?)
            && (forall i: nat | i < |s.h.marks| :: s.h.marks[i].Settled?)
            && s.raw.tail.None? && s.raw.status != Locked
            && (s.mode == Std ==> s.raw.status == Unlocked && s.h.done == |s.h.line|)
  {
    hide Good, Next, Inv, NoLostWake, CanGo;
    var s := states[k];
    RunGood(states, actions, k);
    InvOf(s);
    Core(s);
    forall t: nat | t < |s.frames| ensures s.frames[t].pc.Idle? {
      if !s.frames[t].pc.Idle? { var g := NoDeadlock(s, t); }
    }
    forall r: nat | r < |s.h.calls| ensures s.h.calls[r].ret.Some? { Recorded(s, r); }
    forall i: nat | i < |s.h.marks| ensures s.h.marks[i].Settled? { Spot(s, i); }
    if s.h.start < |s.h.line| { TailAlive(s); }
  }
}
