/** What no step ever undoes. */
module Progression {
  import opened Wrappers
  import opened Tasks
  import opened Atomics
  import opened Machine
  import opened Invariant
  import opened Frames
  import opened Steps
  import opened OwnerSteps
  import opened CursorSteps

  /** A closure that has run stays run, an answer stays given. */
  ghost predicate RequestKept(c: Request, c': Request) {
    && c'.task == c.task && c'.slot == c.slot && c'.born == c.born
    && c.uses <= c'.uses
    && (c.run.Some? ==> c'.run == c.run)
    && (c.ret.Some? ==> c' == c)
  }

  /** A node is linked, taken by one thread, and sent its last message by that thread, in this order and once. */
  ghost predicate MarkKept(m: Mark, m': Mark) {
    || m' == m
    || m.Fresh?
    || (m.Queued? && !m'.Fresh?)
    || (m.Held? && m'.Settled?)
  }

  ghost predicate Kept(s: State, s': State) {
    && Grows(s, s')
    && |s.h.marks| == |s.h.line|
    && (forall r: nat | r < |s.h.calls| :: RequestKept(s.h.calls[r], s'.h.calls[r]))
    && (forall i: nat | i < |s.h.line| :: MarkKept(s.h.marks[i], s'.h.marks[i]))
    && s.h.done <= s'.h.done && s.h.front <= s'.h.front && s.h.start <= s'.h.start
  }

  lemma LinkKept(s: State, t: nat, prev: nat)
    requires Inv(s) && t < |s.frames| && s.frames[t].pc == Link(prev) && prev < |s.frames|
    ensures Kept(s, DoLink(s, t, prev))
  {
    hide Inv;
    Core(s);
    assert WordOk(s, t) by { Facts(s, t); }
  }

  lemma FastLockKept(s: State, t: nat)
    requires Inv(s) && t < |s.frames| && s.frames[t].pc.FastLock?
    ensures Kept(s, DoFastLock(s, t))
  {
    hide Inv;
    Core(s);
    Facts(s, t);
  }

  lemma FastKept(s: State, t: nat, op: FastOp)
    requires Inv(s) && t < |s.frames| && s.frames[t].pc == Fast(op)
    ensures op.FastBegin? ==> Kept(s, DoFastBegin(s, t))
    ensures op.FastRun? ==> Kept(s, DoFastRun(s, t, op.seen))
    ensures op.FastDrop? ==> Kept(s, DoFastDrop(s, t, op.out))
  {
    hide Inv;
    Core(s);
    Facts(s, t);
  }

  lemma ObserveKept(s: State, t: nat)
    requires Inv(s) && t < |s.frames| && s.frames[t].pc.Wait? && s.frames[t].word != Waiting
             && s.frames[t].word != Sleeping
    ensures Kept(s, Observe(s, t, s.frames[t].word))
  {
    hide Inv;
    Core(s);
    Facts(s, t);
    if s.frames[t].word == Head { Spot(s, s.frames[t].pos); }
  }

  lemma WaitKept(s: State, t: nat, op: WaitOp)
    requires Inv(s) && t < |s.frames| && s.frames[t].pc == Wait(op)
    ensures Kept(s, DoWait(s, t, op))
  {
    hide Inv;
    Core(s);
    assert WordOk(s, t) by { Facts(s, t); }
    if s.frames[t].word != Waiting && s.frames[t].word != Sleeping { ObserveKept(s, t); }
  }

  lemma AcquireKept(s: State, t: nat, spinning: bool)
    requires Inv(s) && t < |s.frames| && s.frames[t].pc == Acquire(spinning)
    ensures Kept(s, DoAcquire(s, t, spinning))
  {
    hide Inv;
    Core(s);
    assert WordOk(s, t) by { Facts(s, t); }
    RacerFacts(s, t);
  }

  lemma ExecuteKept(s: State, t: nat, c: nat, seen: Memory)
    requires Inv(s) && t < |s.frames| && s.frames[t].pc == Combine(c, Execute(seen)) && c < |s.frames|
    ensures Kept(s, DoExecute(s, t, c, seen))
  {
    hide Inv;
    Core(s);
    SoundOk(s, t);
    Unlogged(s, t, c);
    RequestFacts(s, c);
  }

  lemma BeginKept(s: State, t: nat, c: nat)
    requires Inv(s) && t < |s.frames| && s.frames[t].pc == Combine(c, Begin) && c < |s.frames|
    ensures Kept(s, DoBegin(s, t, c))
  {
    hide Inv;
    Core(s);
    SoundOk(s, t);
    RequestFacts(s, c);
  }

  lemma PassKept(s: State, t: nat, c: nat, n: nat, message: Word, pc: PC)
    requires Inv(s) && t < |s.frames| && Cursor(s.frames[t].pc) == Some(c) && Passes(s, t, n, message, pc)
    ensures c < |s.frames| && Kept(s, Pass(s, t, c, message, pc))
  {
    hide Inv;
    Core(s);
    SoundOk(s, t);
    SuccessorFacts(s, t, n);
  }

  lemma ShutKept(s: State, t: nat, c: nat, pc: PC)
    requires Inv(s) && t < |s.frames|
    ensures Kept(s, Shut(s, t, c, pc))
  {
    hide Inv;
    Core(s);
  }

  lemma LastKept(s: State, t: nat, c: nat, end: End)
    requires Inv(s) && t < |s.frames| && s.frames[t].pc == Last(c, end)
    ensures c < |s.frames| && Kept(s, DoLast(s, t, c, end))
  {
    hide Inv;
    Core(s);
    SoundOk(s, t);
  }

  lemma UnlockKept(s: State, t: nat)
    requires Inv(s) && t < |s.frames| && s.frames[t].pc.Unlock?
    ensures Kept(s, DoUnlock(s, t))
  {
    hide Inv;
    Core(s);
    Facts(s, t);
  }

  lemma ReturnKept(s: State, t: nat, v: Verdict)
    requires Inv(s) && t < |s.frames| && s.frames[t].pc == Return(v)
    ensures Kept(s, DoReturn(s, t, v))
  {
    hide Inv;
    Core(s);
    Facts(s, t);
  }

  lemma CombineKept(s: State, t: nat, c: nat, op: CombineOp)
    requires Inv(s) && t < |s.frames| && s.frames[t].pc == Combine(c, op) && c < |s.frames|
    requires op.Promote? ==> op.heir < |s.frames|
    ensures Kept(s, DoCombine(s, t, c, op))
  {
    hide Inv, Pass, DoBegin, DoExecute, Shut;
    Core(s);
    match op
    case Begin => BeginKept(s, t, c);
    case Execute(seen) => ExecuteKept(s, t, c, seen);
    case Advance(n) =>
      var pc := Combine(n, if NeedsWake(s, c, Done) then WakePrev(c) else Begin);
      PassKept(s, t, c, n, Done, pc);
    case Close => ShutKept(s, t, c, Last(c, Release));
    case _ =>
  }

  lemma BombKept(s: State, t: nat, a: nat, op: BombOp, why: Why)
    requires Inv(s) && t < |s.frames| && s.frames[t].pc == Bomb(a, op, why) && a < |s.frames|
    ensures Kept(s, DoBomb(s, t, a, op, why))
  {
    hide Inv, Pass, Shut;
    Core(s);
    match op
    case BombAdvance(n) =>
      PassKept(s, t, a, n, Poisoned, Bomb(n, if NeedsWake(s, a, Poisoned) then BombWake(a) else BombNext, why));
    case BombClose => ShutKept(s, t, a, Last(a, Finish(why)));
    case _ =>
  }

  lemma PlainKept(s: State, a: Action)
    requires Inv(s) && Enabled(s, a)
    requires a.Step? ==> var pc := s.frames[a.slot].pc; pc.PeekTail? || pc.Enqueue? || pc.Bow? || pc.LastWake?
    ensures Kept(s, Next(s, a))
  {
    hide Inv, DoFastLock, DoFastBegin, DoFastRun, DoFastDrop, DoLink, DoWait, DoAcquire, DoCombine, DoLast, DoUnlock;
    hide DoBomb, DoReturn;
    Core(s);
  }

  lemma NextKept(s: State, a: Action)
    requires Inv(s) && Enabled(s, a)
    ensures Kept(s, Next(s, a))
  {
    hide Inv, Kept, DoFastLock, DoFastBegin, DoFastRun, DoFastDrop, DoLink, DoWait, DoAcquire, DoCombine, DoLast,
         DoUnlock;
    hide DoBomb, DoReturn, DoCall, DoPeekTail, DoEnqueue, DoBow, DoLastWake;
    SoundOk(s, a.slot);
    if a.Step? && s.frames[a.slot].pc.Combine? && s.frames[a.slot].pc.op.Promote? {
      SuccessorFacts(s, a.slot, s.frames[a.slot].pc.op.heir);
    }
    if a.Step? {
      var t := a.slot;
      match s.frames[t].pc
      case FastLock => FastLockKept(s, t);
      case Fast(op) => FastKept(s, t, op);
      case Link(prev) => PredecessorAlive(s, t, prev); LinkKept(s, t, prev);
      case Wait(op) => WaitKept(s, t, op);
      case Acquire(spinning) => AcquireKept(s, t, spinning);
      case Combine(c, op) => CombineKept(s, t, c, op);
      case Last(c, end) => LastKept(s, t, c, end);
      case Unlock => UnlockKept(s, t);
      case Bomb(a, op, why) => BombKept(s, t, a, op, why);
      case Return(v) => ReturnKept(s, t, v);
      case _ => PlainKept(s, a);
    } else {
      PlainKept(s, a);
    }
  }

  lemma KeptTransitive(s: State, s': State, s'': State)
    requires Kept(s, s') && Kept(s', s'')
    ensures Kept(s, s'')
  {
  }
}
