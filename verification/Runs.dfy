/** The invariant holds in every state of every run. */
module Runs {
  import opened Wrappers
  import opened Atomics
  import opened Machine
  import opened Invariant
  import opened Steps
  import opened OwnerSteps
  import opened CursorSteps

  lemma WaitStepOk(s: State, t: nat, op: WaitOp)
    requires Inv(s) && t < |s.frames| && s.frames[t].pc == Wait(op)
    ensures Inv(DoWait(s, t, op))
  {
    hide Inv;
    var word := s.frames[t].word;
    assert WordOk(s, t) by { Facts(s, t); }
    match op
    case Spin(left) => if word == Waiting { SpinOk(s, t, left); } else { ObserveOk(s, t); }
    case Park => if word == Waiting { ParkOk(s, t); } else { ObserveOk(s, t); }
    case Recheck => RecheckOk(s, t);
    case Syscall => SyscallOk(s, t);
    case Parked =>
    case Reload => ObserveOk(s, t);
  }

  lemma ObserveOk(s: State, t: nat)
    requires Inv(s) && t < |s.frames| && s.frames[t].pc.Wait? && s.frames[t].word != Waiting
             && s.frames[t].word != Sleeping
    ensures Inv(Observe(s, t, s.frames[t].word))
  {
    hide Inv;
    assert WordOk(s, t) by { Facts(s, t); }
    if s.frames[t].word == Head { HeadOk(s, t); } else { ObserveLastOk(s, t); }
  }

  lemma FastLockStepOk(s: State, t: nat)
    requires Inv(s) && t < |s.frames| && s.frames[t].pc.FastLock?
    ensures Inv(DoFastLock(s, t))
  {
    hide Inv;
    match s.raw.status
    case Unlocked => FastLockOk(s, t);
    case Locked => FastLockBusyOk(s, t);
    case Dead => FastLockRefusedOk(s, t);
  }

  lemma AcquireStepOk(s: State, t: nat, spinning: bool)
    requires Inv(s) && t < |s.frames| && s.frames[t].pc == Acquire(spinning)
    ensures Inv(DoAcquire(s, t, spinning))
  {
    hide Inv;
    if spinning {
      AcquireBusyOk(s, t, false);
    } else if s.raw.status == Locked {
      AcquireBusyOk(s, t, true);
    } else {
      Core(s);
      AcquireOk(s, t);
    }
  }

  lemma CombineStepOk(s: State, t: nat, c: nat, op: CombineOp)
    requires Inv(s) && t < |s.frames| && s.frames[t].pc == Combine(c, op)
    ensures c < |s.frames| && (op.Promote? ==> op.heir < |s.frames|) && Inv(DoCombine(s, t, c, op))
  {
    hide Inv, CursorOk;
    CursorFacts(s, t);
    SoundOk(s, t);
    match op
    case WakePrev(address) => WakePrevOk(s, t, c, address);
    case Begin => BeginOk(s, t, c);
    case Execute(seen) => ExecuteOk(s, t, c, seen);
    case LoadNext => LoadNextOk(s, t, c);
    case Advance(n) => PassOk(s, t, c, n, Done, Combine(n, if NeedsWake(s, c, Done) then WakePrev(c) else Begin));
    case Close => if s.raw.tail == Some(c) { ShutOk(s, t, c, Last(c, Release)); } else { CloseFailOk(s, t, c); }
    case HandOff => HandOffOk(s, t, c);
    case Promote(n) => PromoteOk(s, t, c, n);
  }

  lemma BombStepOk(s: State, t: nat, a: nat, op: BombOp, why: Why)
    requires Inv(s) && t < |s.frames| && s.frames[t].pc == Bomb(a, op, why)
    ensures a < |s.frames| && Inv(DoBomb(s, t, a, op, why))
  {
    hide Inv, CursorOk;
    CursorFacts(s, t);
    SoundOk(s, t);
    match op
    case Poison => PoisonOk(s, t, a, why);
    case BombWake(address) => BombWakeOk(s, t, a, address, why);
    case BombNext => BombNextOk(s, t, a, why);
    case BombAdvance(n) =>
      PassOk(s, t, a, n, Poisoned, Bomb(n, if NeedsWake(s, a, Poisoned) then BombWake(a) else BombNext, why));
    case BombClose =>
      if s.raw.tail == Some(a) { ShutOk(s, t, a, Last(a, Finish(why))); } else { BombCloseFailOk(s, t, a, why); }
    case BombSpin => BombSpinOk(s, t, a, why);
  }

  /** Every step of every thread keeps the invariant. */
  lemma NextOk(s: State, a: Action)
    requires Inv(s) && Enabled(s, a)
    ensures Inv(Next(s, a))
  {
    hide Inv;
    match a
    case Call(t, task) => CallOk(s, t, task);
    case Spurious(t) => SpuriousOk(s, t);
    case Step(t) =>
      match s.frames[t].pc
      case Idle =>
      case PeekTail => PeekTailOk(s, t);
      case FastLock => FastLockStepOk(s, t);
      case Fast(FastBegin) => FastBeginOk(s, t);
      case Fast(FastRun(seen)) => FastRunOk(s, t, seen);
      case Fast(FastDrop(out)) => FastDropOk(s, t, out);
      case Enqueue => EnqueueOk(s, t);
      case Link(prev) => LinkOk(s, t, prev);
      case Wait(op) => WaitStepOk(s, t, op);
      case Acquire(spinning) => AcquireStepOk(s, t, spinning);
      case Combine(c, op) => CombineStepOk(s, t, c, op);
      case Bow(c, address) => BowOk(s, t, c, address);
      case Last(c, end) => LastOk(s, t, c, end);
      case LastWake(address, end) => LastWakeOk(s, t, address, end);
      case Unlock => UnlockOk(s, t);
      case Bomb(a, op, why) => BombStepOk(s, t, a, op, why);
      case Return(verdict) => ReturnOk(s, t, verdict);
  }
}
