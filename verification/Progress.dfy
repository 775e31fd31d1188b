/** Every request is served: some thread can always go on, and nobody can go on forever. */
module Progress {
  import opened Wrappers
  import opened Atomics
  import opened Machine
  import opened Invariant
  import opened Steps
  import opened OwnerSteps
  import opened CursorSteps
  import opened Effects

  // ---------- the measure ----------

  ghost function WaitRank(op: WaitOp, word: Word): nat {
    match op
    case Spin(left) => 8 + left
    case Park => 7
    case Recheck => if word == Sleeping then 6 else 3
    case Syscall => if word == Sleeping then 5 else 4
    case Parked => 4
    case Reload => 2
  }

  ghost function CombineRank(op: CombineOp): nat {
    match op
    case WakePrev(_) => 26
    case Begin => 22
    case Execute(_) => 21
    case LoadNext => 20
    case Advance(_) => 19
    case Close => 15
    case HandOff => 14
    case Promote(_) => 13
  }

  ghost function BombRank(op: BombOp, linked: bool): nat {
    match op
    case BombWake(_) => 19
    case Poison => 16
    case BombNext => if linked then 11 else 15
    case BombClose => 14
    case BombSpin => 12
    case BombAdvance(_) => 10
  }

  /** How many more steps of its own the thread can make before its node changes hands. */
  ghost function Rank(f: Frame, linked: bool): nat {
    match f.pc
    case Idle => 0
    case PeekTail => 170
    case FastLock => 160
    case Fast(FastBegin) => 3
    case Fast(FastRun(_)) => 2
    case Fast(FastDrop(_)) => 1
    case Enqueue => 150
    case Link(_) => 110
    case Wait(op) => WaitRank(op, f.word)
    case Acquire(_) => 1
    case Combine(_, op) => CombineRank(op)
    case Bow(_, _) => 12
    case Last(_, _) => 7
    case LastWake(_, _) => 6
    case Unlock => 2
    case Bomb(_, op, _) => BombRank(op, linked)
    case Return(_) => 1
  }

  /** The cursor of slot `u` has a link to its successor. */
  ghost predicate Linked(s: State, u: nat)
    requires u < |s.frames|
  {
    Cursor(s.frames[u].pc).Some? && Cursor(s.frames[u].pc).value < |s.frames|
    && s.frames[Cursor(s.frames[u].pc).value].next.Some?
  }

  ghost function RankAt(s: State, u: nat): nat
    requires u < |s.frames|
  {
    Rank(s.frames[u], Linked(s, u))
  }

  /** The race of the head for the lock. */
  ghost function HeadRank(s: State): nat {
    if s.h.start < |s.h.line| && s.h.front == s.h.start && s.h.line[s.h.start].slot < |s.frames|
       && s.frames[s.h.line[s.h.start].slot].pc.Acquire? then
      var spinning := s.frames[s.h.line[s.h.start].slot].pc.spinning;
      if s.raw.status == Locked then (if spinning then 3 else 4)
      else (if spinning then 2 else 1)
    else 0
  }

  /** Places that no thread has reached. */
  ghost function Waiters(s: State): nat {
    if s.h.front <= |s.h.line| then |s.h.line| - s.h.front else 0
  }

  ghost function Shared(s: State): nat {
    30 * Waiters(s) + HeadRank(s)
  }

  ghost function RankSum(s: State, n: nat): nat
    requires n <= |s.frames|
  {
    if n == 0 then 0 else RankSum(s, n - 1) + RankAt(s, n - 1)
  }

  ghost function Measure(s: State): nat {
    RankSum(s, |s.frames|) + Shared(s)
  }

  /** If all slots but `t` and `v` do not rise, the sum changes by at most what these two do. */
  lemma {:induction false} SumChange(s: State, s': State, n: nat, t: nat, v: nat)
    requires n <= |s.frames| == |s'.frames| && t < |s.frames| && v < |s.frames|
    requires forall u: nat | u < n && u != t && u != v :: RankAt(s', u) <= RankAt(s, u)
    ensures RankSum(s', n) <= RankSum(s, n)
              + (if t < n then RankAt(s', t) - RankAt(s, t) else 0)
              + (if v < n && v != t then RankAt(s', v) - RankAt(s, v) else 0)
  {
    if n > 0 { SumChange(s, s', n - 1, t, v); }
  }

  // ---------- the other threads ----------

  /** Threads other than the actor do not rise, but for one that a stale wake-up unparks. */
  lemma OthersRank(s: State, t: nat, u: nat)
    requires Inv(s) && Enabled(s, Step(t)) && u < |s.frames| && u != t
    ensures |Next(s, Step(t)).frames| == |s.frames|
    ensures RankAt(Next(s, Step(t)), u) <= RankAt(s, u) + (if Waker(s.frames[t].pc) == Some(u) then 2 else 0)
  {
    hide Inv, Next, Waker;
    OtherSlots(s, Step(t), u);
    SoundOk(s, u);
    if s.frames[u].pc.Bomb? {
      var c := s.frames[u].pc.cursor;
      if c != t { OtherSlots(s, Step(t), c); } else { LookedAfterKeepsLink(s, t, u); }
    }
  }

  /** A node that some other thread looks after keeps its link while its owner waits. */
  lemma LookedAfterKeepsLink(s: State, t: nat, u: nat)
    requires Inv(s) && Enabled(s, Step(t)) && u < |s.frames| && u != t && Cursor(s.frames[u].pc) == Some(t)
    ensures t < |Next(s, Step(t)).frames| && Next(s, Step(t)).frames[t].next == s.frames[t].next
  {
    hide Inv;
    LookedAfter(s, u);
  }

  // ---------- the actor ----------

  /** The actor's rank and the shared part drop together, with two to spare for a stale wake-up. */
  ghost predicate Drops(s: State, s': State, t: nat)
    requires t < |s.frames| == |s'.frames|
  {
    RankAt(s', t) + Shared(s') + (if Waker(s.frames[t].pc).Some? then 2 else 0) < RankAt(s, t) + Shared(s)
  }

  lemma ObserveDrops(s: State, t: nat)
    requires Inv(s) && t < |s.frames| && s.frames[t].pc.Wait? && !s.frames[t].pc.wait.Parked?
    requires s.frames[t].word != Waiting && s.frames[t].word != Sleeping
    ensures |Observe(s, t, s.frames[t].word).frames| == |s.frames| && Drops(s, Observe(s, t, s.frames[t].word), t)
  {
    hide Inv;
    Core(s);
    assert WordOk(s, t) by { Facts(s, t); }
  }

  /** The thread looks at its word and has its message. */
  ghost predicate Observes(op: WaitOp, word: Word) {
    (op.Spin? || op.Park? || op.Reload?) && word != Waiting && word != Sleeping
  }

  lemma WaitShared(s: State, t: nat, op: WaitOp)
    requires t < |s.frames| && s.frames[t].pc == Wait(op) && !Observes(op, s.frames[t].word)
    requires (op.Spin? || op.Park? ==> s.frames[t].word != Sleeping)
             && (op.Reload? ==> s.frames[t].word != Waiting && s.frames[t].word != Sleeping)
    ensures Shared(DoWait(s, t, op)) == Shared(s) && |DoWait(s, t, op).frames| == |s.frames|
  {
    hide Observe;
  }

  lemma WaitDrops(s: State, t: nat, op: WaitOp)
    requires Inv(s) && t < |s.frames| && s.frames[t].pc == Wait(op) && !op.Parked?
    ensures |DoWait(s, t, op).frames| == |s.frames| && Drops(s, DoWait(s, t, op), t)
  {
    hide Inv, Observe, Shared;
    assert WordOk(s, t) by { Facts(s, t); }
    if Observes(op, s.frames[t].word) { ObserveDrops(s, t); } else { WaitShared(s, t, op); }
  }

  lemma AcquireDrops(s: State, t: nat, spinning: bool)
    requires Inv(s) && t < |s.frames| && s.frames[t].pc == Acquire(spinning)
    requires !(spinning && s.raw.status == Locked)
    ensures |DoAcquire(s, t, spinning).frames| == |s.frames| && Drops(s, DoAcquire(s, t, spinning), t)
  {
    hide Inv;
    RacerFacts(s, t);
    Core(s);
  }

  /** While somebody walks the open chain, only an advance changes the shared part. */
  lemma CombineShared(s: State, t: nat, c: nat, op: CombineOp)
    requires Inv(s) && t < |s.frames| && s.frames[t].pc == Combine(c, op)
    ensures c < |s.frames| && (op.Promote? ==> op.heir < |s.frames|)
    ensures Shared(DoCombine(s, t, c, op)) == Shared(s) - (if op.Advance? then 30 else 0)
  {
    hide Inv;
    Core(s);
    CursorFacts(s, t);
    if Heir(s.frames[t].pc).Some? { SuccessorFacts(s, t, Heir(s.frames[t].pc).value); }
  }

  lemma CombineDrops(s: State, t: nat, c: nat, op: CombineOp)
    requires Inv(s) && t < |s.frames| && s.frames[t].pc == Combine(c, op)
    ensures c < |s.frames| && (op.Promote? ==> op.heir < |s.frames|)
    ensures (op.HandOff? && s.frames[c].next.None?) ||
            (|DoCombine(s, t, c, op).frames| == |s.frames| && Drops(s, DoCombine(s, t, c, op), t))
  {
    hide Inv, Shared;
    CombineShared(s, t, c, op);
    if op.Promote? { SuccessorFacts(s, t, op.heir); }
  }

  lemma BombShared(s: State, t: nat, a: nat, op: BombOp, why: Why)
    requires Inv(s) && t < |s.frames| && s.frames[t].pc == Bomb(a, op, why)
    ensures a < |s.frames|
    ensures Shared(DoBomb(s, t, a, op, why)) == Shared(s) - (if op.BombAdvance? then 30 else 0)
  {
    hide Inv;
    Core(s);
    CursorFacts(s, t);
    if Heir(s.frames[t].pc).Some? { SuccessorFacts(s, t, Heir(s.frames[t].pc).value); }
  }

  lemma BombDrops(s: State, t: nat, a: nat, op: BombOp, why: Why)
    requires Inv(s) && t < |s.frames| && s.frames[t].pc == Bomb(a, op, why)
    ensures a < |s.frames|
    ensures (op.BombSpin? && s.frames[a].next.None?) ||
            (|DoBomb(s, t, a, op, why).frames| == |s.frames| && Drops(s, DoBomb(s, t, a, op, why), t))
  {
    hide Inv, Shared;
    BombShared(s, t, a, op, why);
  }

  lemma EnqueueDrops(s: State, t: nat)
    requires Inv(s) && t < |s.frames| && s.frames[t].pc.Enqueue?
    ensures |DoEnqueue(s, t).frames| == |s.frames| && Drops(s, DoEnqueue(s, t), t)
  {
    hide Inv;
    Core(s);
  }

  lemma FastLockDrops(s: State, t: nat)
    requires Inv(s) && t < |s.frames| && s.frames[t].pc.FastLock?
    ensures |DoFastLock(s, t).frames| == |s.frames| && Drops(s, DoFastLock(s, t), t)
  {
    hide Inv;
    Core(s);
  }

  lemma LinkDrops(s: State, t: nat, prev: nat)
    requires Inv(s) && t < |s.frames| && s.frames[t].pc == Link(prev)
    ensures prev < |s.frames| && |DoLink(s, t, prev).frames| == |s.frames| && Drops(s, DoLink(s, t, prev), t)
  {
    hide Inv;
    Core(s);
    PredecessorAlive(s, t, prev);
  }

  lemma LastDrops(s: State, t: nat, c: nat, end: End)
    requires Inv(s) && t < |s.frames| && s.frames[t].pc == Last(c, end)
    ensures c < |s.frames| && |DoLast(s, t, c, end).frames| == |s.frames| && Drops(s, DoLast(s, t, c, end), t)
  {
    hide Inv;
    Core(s);
    SoundOk(s, t);
  }

  /** A release that a racing head can see. */
  lemma ReleaseDrops(s: State, t: nat)
    requires t < |s.frames|
    ensures s.frames[t].pc.Fast? && s.frames[t].pc.fast.FastDrop? ==>
              var s' := DoFastDrop(s, t, s.frames[t].pc.fast.out);
              |s'.frames| == |s.frames| && Drops(s, s', t)
    ensures s.frames[t].pc.Unlock? ==>
              var s' := DoUnlock(s, t);
              |s'.frames| == |s.frames| && Drops(s, s', t)
  {
  }

  lemma FastDrops(s: State, t: nat)
    requires Inv(s) && t < |s.frames| && (s.frames[t].pc.PeekTail? || s.frames[t].pc.Fast?)
    ensures |Next(s, Step(t)).frames| == |s.frames| && Drops(s, Next(s, Step(t)), t)
  {
    hide Inv, DoWait, DoAcquire, DoCombine, DoBomb, DoEnqueue, DoFastLock, DoLink, DoLast, DoBow, DoLastWake, DoUnlock,
         DoReturn, DoFastDrop;
    if s.frames[t].pc.Fast? && s.frames[t].pc.fast.FastDrop? { ReleaseDrops(s, t); }
  }

  lemma EndDrops(s: State, t: nat)
    requires Inv(s) && t < |s.frames|
             && (s.frames[t].pc.Bow? || s.frames[t].pc.LastWake? || s.frames[t].pc.Unlock? || s.frames[t].pc.Return?)
    ensures |Next(s, Step(t)).frames| == |s.frames| && Drops(s, Next(s, Step(t)), t)
  {
    hide Inv, DoWait, DoAcquire, DoCombine, DoBomb, DoEnqueue, DoFastLock, DoLink, DoLast, DoPeekTail, DoFastBegin,
         DoFastRun, DoFastDrop, DoUnlock;
    if s.frames[t].pc.Unlock? { ReleaseDrops(s, t); }
  }

  /** A thread that can only spin: the lock is held, or the successor has not linked itself yet. */
  ghost predicate Spins(s: State, t: nat)
    requires t < |s.frames|
  {
    match s.frames[t].pc
    case Acquire(spinning) => spinning && s.raw.status == Locked
    case Combine(c, HandOff) => c < |s.frames| && s.frames[c].next.None?
    case Bomb(c, BombSpin, _) => c < |s.frames| && s.frames[c].next.None?
    case _ => false
  }

  lemma ActorDrops(s: State, t: nat)
    requires Inv(s) && Enabled(s, Step(t)) && !Spins(s, t)
    ensures |Next(s, Step(t)).frames| == |s.frames| && Drops(s, Next(s, Step(t)), t)
  {
    hide Inv, Drops, DoWait, DoAcquire, DoCombine, DoBomb, DoEnqueue, DoFastLock, DoLink, DoLast;
    hide DoPeekTail, DoFastBegin, DoFastRun, DoFastDrop, DoBow, DoLastWake, DoUnlock, DoReturn;
    match s.frames[t].pc
    case Wait(op) => WaitDrops(s, t, op);
    case Acquire(spinning) => AcquireDrops(s, t, spinning);
    case Combine(c, op) => CombineDrops(s, t, c, op);
    case Bomb(a, op, why) => BombDrops(s, t, a, op, why);
    case Enqueue => EnqueueDrops(s, t);
    case FastLock => FastLockDrops(s, t);
    case Link(prev) => LinkDrops(s, t, prev);
    case Last(c, end) => LastDrops(s, t, c, end);
    case PeekTail => FastDrops(s, t);
    case Fast(op) => FastDrops(s, t);
    case Bow(c, address) => EndDrops(s, t);
    case LastWake(address, end) => EndDrops(s, t);
    case Unlock => EndDrops(s, t);
    case Return(verdict) => EndDrops(s, t);
  }

  // ---------- the theorems ----------

  /** Every step that is not a spin brings all requests together closer to their return. */
  lemma StepDrops(s: State, t: nat)
    requires Inv(s) && Enabled(s, Step(t))
    ensures if Spins(s, t) then Next(s, Step(t)) == s else Measure(Next(s, Step(t))) < Measure(s)
  {
    hide Inv, Waker;
    if !Spins(s, t) {
      hide Next;
      ActorDrops(s, t);
      var s' := Next(s, Step(t));
      forall u: nat | u < |s.frames| && u != t
        ensures RankAt(s', u) <= RankAt(s, u) + (if Waker(s.frames[t].pc) == Some(u) then 2 else 0)
      {
        OthersRank(s, t, u);
      }
      var w := Waker(s.frames[t].pc);
      SumChange(s, s', |s.frames|, t, if w.Some? && w.value < |s.frames| then w.value else t);
    }
  }

  /** A thread whose next step changes the state. */
  ghost predicate CanGo(s: State, t: nat) {
    t < |s.frames| && Enabled(s, Step(t)) && !Spins(s, t)
  }

  /** The thread is about to link the node at place `i` to its predecessor. */
  ghost predicate Linking(s: State, g: nat, i: nat) {
    g < |s.frames| && s.frames[g].pc.Link? && s.frames[g].pos == i
  }

  /** A thread that drives the chain can go on, or the thread whose link it waits for can. */
  lemma DriverGoes(s: State, t: nat) returns (g: nat)
    requires Inv(s) && t < |s.frames| && Cursor(s.frames[t].pc).Some?
    ensures CanGo(s, g)
    ensures if Spins(s, t) then Linking(s, g, s.h.front) else g == t
  {
    hide Inv;
    g := t;
    if Spins(s, t) {
      LinkRead(s, t, s.frames[t].pc.cursor);
      assert RoleOk(s, t) by { Facts(s, t); }
      Spot(s, s.h.front);
      g := s.h.line[s.h.front].slot;
    }
  }

  /** A thread parked on a word that is no longer SLEEPING has a waker that can go on. */
  lemma WakerGoes(s: State, t: nat) returns (g: nat)
    requires NoLostWake(s) && t < |s.frames| && s.frames[t].pc.Wait? && s.frames[t].word != Sleeping
    ensures CanGo(s, g) && (g == t || Waker(s.frames[g].pc).Some?)
  {
    g := t;
    if s.frames[t].pc == Wait(Parked) {
      g :| g < |s.frames| && Waker(s.frames[g].pc) == Some(t);
    }
  }

  lemma OwnerGoes(s: State) returns (g: nat)
    requires Inv(s) && NoLostWake(s) && s.raw.status == Locked
    ensures CanGo(s, g)
  {
    hide Inv, NoLostWake;
    Core(s);
    var o := s.h.owner.value;
    if s.frames[o].pc.Wait? { g := WakerGoes(s, o); }
    else if Cursor(s.frames[o].pc).Some? { g := DriverGoes(s, o); }
    else { g := o; }
  }

  /** While places of the open chain wait, its driver or its head can go on. */
  lemma ChainGoes(s: State) returns (g: nat)
    requires Inv(s) && NoLostWake(s) && s.h.front < |s.h.line|
    ensures CanGo(s, g)
  {
    hide Inv, NoLostWake;
    Core(s);
    if s.raw.status == Locked {
      g := OwnerGoes(s);
    } else if s.h.start < s.h.front {
      g := DriverGoes(s, s.h.marks[s.h.front - 1].keeper);
    } else {
      Spot(s, s.h.start);
      g := s.h.line[s.h.start].slot;
      assert IdentityOk(s, g) && WordOk(s, g) by { Facts(s, g); }
    }
  }

  /** No deadlock: as long as a request has not returned, some thread can make a step that counts. */
  lemma NoDeadlock(s: State, t: nat) returns (g: nat)
    requires Inv(s) && NoLostWake(s) && t < |s.frames| && !s.frames[t].pc.Idle?
    ensures CanGo(s, g)
  {
    hide Inv, NoLostWake;
    g := t;
    if s.frames[t].pc == Wait(Parked) {
      if s.frames[t].word != Sleeping {
        g := WakerGoes(s, t);
      } else {
        assert IdentityOk(s, t) && WordOk(s, t) by { Facts(s, t); }
        Spot(s, s.frames[t].pos);
        if s.h.marks[s.frames[t].pos].Held? {
          g := DriverGoes(s, s.h.marks[s.frames[t].pos].keeper);
        } else {
          g := ChainGoes(s);
        }
      }
    } else if Spins(s, t) {
      if s.frames[t].pc.Acquire? { g := OwnerGoes(s); } else { g := DriverGoes(s, t); }
    }
  }
}
