/**
 * The invariant, step by step. This file has the ways to read it (`Facts`, `Core`, `Spot`,
 * `Recorded`) and the steps that no other thread can notice: they leave the lock word, the
 * tail, the owner, the queue and the log as they are.
 */
module Steps {
  import opened Wrappers
  import opened Tasks
  import opened Atomics
  import opened Machine
  import opened Invariant
  import opened Frames

  /** The parts of the invariant that a step of slot `t` needs. */
  lemma Facts(s: State, t: nat)
    requires Inv(s) && t < |s.frames|
    ensures |s.h.marks| == |s.h.line|
    ensures SlotOk(s, t)
    ensures !s.frames[t].pc.Idle? ==> s.frames[t].rid < |s.h.calls| && RequestOk(s, s.frames[t].rid)
  {
    assert SlotOk(s, t);
    if !s.frames[t].pc.Idle? { assert RequestOk(s, s.frames[t].rid); }
  }

  lemma Core(s: State)
    requires Inv(s)
    ensures GlobalOk(s)
  {
  }

  lemma Spot(s: State, i: nat)
    requires Inv(s) && i < |s.h.line|
    ensures |s.h.marks| == |s.h.line| && PlaceOk(s, i)
  {
  }

  lemma Recorded(s: State, r: nat)
    requires Inv(s) && r < |s.h.calls|
    ensures RequestOk(s, r)
  {
  }

  /** While a thread owns or drives, or the lock is free, all other threads are bystanders. */
  lemma Alone(s: State, t: nat, u: nat)
    requires Inv(s) && t < |s.frames| && u < |s.frames| && u != t
    requires s.h.owner == Some(t) || s.raw.status == Unlocked || Drives(s.frames[t].pc)
    ensures Bystander(s.frames[u])
  {
    assert SlotOk(s, t) && SlotOk(s, u);
  }

  // ---------- moves that no other thread can notice ----------

  ghost predicate Quiet(f: Frame, pc: PC) {
    && !f.pc.Idle? && !pc.Idle?
    && InLine(f) && InLine(f.(pc := pc))
    && Cursor(f.pc) == Cursor(pc)
    && !f.pc.Link?
    && Owns(f) == Owns(f.(pc := pc))
    && Drives(f.pc) == Drives(pc)
    && (Ready(f.pc) || Executing(f.pc) <==> Ready(pc) || Executing(pc))
    && (Executing(f.pc) ==> Executing(pc))
  }

  lemma QuietOk(s: State, t: nat, pc: PC)
    requires Inv(s) && t < |s.frames|
    requires Quiet(s.frames[t], pc)
    requires |s.h.marks| == |s.h.line| && SlotOk(Goto(s, t, pc), t)
    ensures Inv(Goto(s, t, pc))
  {
    hide Inv;
    var s' := Goto(s, t, pc);
    Facts(s, t);
    hide SlotOk;
    CalmStep(s, s', t);
  }

  // ---------- try_run ----------

  lemma CallOk(s: State, t: nat, task: Task)
    requires Inv(s) && Enabled(s, Call(t, task))
    ensures Inv(DoCall(s, t, task))
  {
    hide Inv;
    Facts(s, t);
    CalmStep(s, DoCall(s, t, task), t);
  }

  lemma PeekTailOk(s: State, t: nat)
    requires Inv(s) && t < |s.frames| && s.frames[t].pc.PeekTail?
    ensures Inv(DoPeekTail(s, t))
  {
    hide Inv;
    Facts(s, t);
    CalmStep(s, DoPeekTail(s, t), t);
  }

  lemma FastLockBusyOk(s: State, t: nat)
    requires Inv(s) && t < |s.frames| && s.frames[t].pc.FastLock? && s.raw.status == Locked
    ensures Inv(DoFastLock(s, t))
  {
    hide Inv;
    Facts(s, t);
    CalmStep(s, DoFastLock(s, t), t);
  }

  lemma FastLockRefusedOk(s: State, t: nat)
    requires Inv(s) && t < |s.frames| && s.frames[t].pc.FastLock? && s.raw.status == Dead
    ensures Inv(DoFastLock(s, t))
  {
    hide Inv;
    assert s.mode == NoStd by { Core(s); }
    Facts(s, t);
    CalmStep(s, DoFastLock(s, t), t);
  }

  lemma FastBeginOk(s: State, t: nat)
    requires Inv(s) && t < |s.frames| && s.frames[t].pc == Fast(FastBegin)
    ensures Inv(DoFastBegin(s, t))
  {
    hide Inv;
    Facts(s, t);
    CalmStep(s, DoFastBegin(s, t), t);
  }

  // ---------- waiting ----------

  lemma SpinOk(s: State, t: nat, left: nat)
    requires Inv(s) && t < |s.frames| && s.frames[t].pc == Wait(Spin(left)) && s.frames[t].word == Waiting
    ensures Inv(DoWait(s, t, Spin(left)))
  {
    hide Inv;
    Facts(s, t);
    QuietOk(s, t, Wait(if left <= 1 then Park else Spin(left - 1)));
  }

  lemma ParkOk(s: State, t: nat)
    requires Inv(s) && t < |s.frames| && s.frames[t].pc == Wait(Park) && s.frames[t].word == Waiting
    ensures Inv(DoWait(s, t, Park))
  {
    hide Inv;
    Facts(s, t);
    CalmStep(s, DoWait(s, t, Park), t);
  }

  lemma RecheckOk(s: State, t: nat)
    requires Inv(s) && t < |s.frames| && s.frames[t].pc == Wait(Recheck)
    ensures Inv(DoWait(s, t, Recheck))
  {
    hide Inv;
    Facts(s, t);
    QuietOk(s, t, Wait(if s.frames[t].word == Sleeping then Syscall else Reload));
  }

  lemma SyscallOk(s: State, t: nat)
    requires Inv(s) && t < |s.frames| && s.frames[t].pc == Wait(Syscall)
    ensures Inv(DoWait(s, t, Syscall))
  {
    hide Inv;
    Facts(s, t);
    QuietOk(s, t, Wait(if s.frames[t].word == Sleeping then Parked else Recheck));
  }

  /** A waiter that has been sent DONE, or cancelled, is about to return. */
  lemma ObserveLastOk(s: State, t: nat)
    requires Inv(s) && t < |s.frames| && s.frames[t].pc.Wait?
    requires s.frames[t].word == Done || (s.mode == NoStd && s.frames[t].word == Poisoned)
    ensures Inv(Observe(s, t, s.frames[t].word))
  {
    hide Inv;
    Facts(s, t);
    QuietOk(s, t, Observe(s, t, s.frames[t].word).frames[t].pc);
  }

  lemma SpuriousOk(s: State, t: nat)
    requires Inv(s) && t < |s.frames| && s.frames[t].pc == Wait(Parked)
    ensures Inv(Goto(s, t, Wait(Recheck)))
  {
    hide Inv;
    Facts(s, t);
    QuietOk(s, t, Wait(Recheck));
  }

  lemma UnparkOk(s: State, t: nat, address: nat)
    requires Inv(s) && t < |s.frames| && !s.frames[t].pc.Wait?
    ensures Inv(Unpark(s, address))
    ensures |Unpark(s, address).frames| == |s.frames| && Unpark(s, address).frames[t] == s.frames[t]
  {
    if address < |s.frames| && s.frames[address].pc == Wait(Parked) { SpuriousOk(s, address); }
  }

  lemma AcquireBusyOk(s: State, t: nat, spinning: bool)
    requires Inv(s) && t < |s.frames| && s.frames[t].pc.Acquire?
    ensures Inv(Goto(s, t, Acquire(spinning)))
  {
    hide Inv;
    Facts(s, t);
    QuietOk(s, t, Acquire(spinning));
  }

  // ---------- combining ----------

  /** The link that a thread reads from its cursor leads to the first place nobody has reached. */
  lemma LinkRead(s: State, t: nat, c: nat)
    requires Inv(s) && t < |s.frames| && Drives(s.frames[t].pc) && s.frames[t].pc.cursor == c
    ensures c < |s.frames| && |s.h.marks| == |s.h.line|
    ensures s.frames[c].next.Some? ==> HeirOk(s, s.frames[c].next.value)
    ensures s.frames[c].next.None? && s.h.front < |s.h.line| ==> s.h.marks[s.h.front].Fresh?
  {
    hide Inv;
    Core(s);
    Facts(s, t);
    Facts(s, c);
    Spot(s, s.h.front - 1);
    if s.h.front < |s.h.line| { Spot(s, s.h.front); }
  }

  lemma LoadNextOk(s: State, t: nat, c: nat)
    requires Inv(s) && t < |s.frames| && s.frames[t].pc == Combine(c, LoadNext)
    ensures c < |s.frames| && Inv(DoCombine(s, t, c, LoadNext))
  {
    hide Inv;
    LinkRead(s, t, c);
    Facts(s, t);
    QuietOk(s, t, DoCombine(s, t, c, LoadNext).frames[t].pc);
  }

  lemma HandOffOk(s: State, t: nat, c: nat)
    requires Inv(s) && t < |s.frames| && s.frames[t].pc == Combine(c, HandOff)
    ensures c < |s.frames| && Inv(DoCombine(s, t, c, HandOff))
  {
    hide Inv;
    LinkRead(s, t, c);
    Facts(s, t);
    if s.frames[c].next.Some? { QuietOk(s, t, Combine(c, Promote(s.frames[c].next.value))); }
  }

  lemma BombNextOk(s: State, t: nat, a: nat, why: Why)
    requires Inv(s) && t < |s.frames| && s.frames[t].pc == Bomb(a, BombNext, why)
    ensures a < |s.frames| && Inv(DoBomb(s, t, a, BombNext, why))
  {
    hide Inv;
    LinkRead(s, t, a);
    Facts(s, t);
    QuietOk(s, t, DoBomb(s, t, a, BombNext, why).frames[t].pc);
  }

  lemma BombSpinOk(s: State, t: nat, a: nat, why: Why)
    requires Inv(s) && t < |s.frames| && s.frames[t].pc == Bomb(a, BombSpin, why)
    ensures a < |s.frames| && Inv(DoBomb(s, t, a, BombSpin, why))
  {
    hide Inv;
    LinkRead(s, t, a);
    Facts(s, t);
    if s.frames[a].next.Some? { QuietOk(s, t, Bomb(a, BombNext, why)); }
  }

  /** An unsuccessful close: some node has joined behind the cursor. */
  lemma Joined(s: State, t: nat, c: nat)
    requires Inv(s) && t < |s.frames| && Drives(s.frames[t].pc) && s.frames[t].pc.cursor == c && s.raw.tail != Some(c)
    ensures s.h.front < |s.h.line|
  {
    assert SlotOk(s, t) && SlotOk(s, c);
  }

  lemma CloseFailOk(s: State, t: nat, c: nat)
    requires Inv(s) && t < |s.frames| && s.raw.tail != Some(c) && s.frames[t].pc == Combine(c, Close)
    ensures Inv(Goto(s, t, Combine(c, HandOff)))
  {
    hide Inv;
    Joined(s, t, c);
    Facts(s, t);
    QuietOk(s, t, Combine(c, HandOff));
  }

  lemma BombCloseFailOk(s: State, t: nat, c: nat, why: Why)
    requires Inv(s) && t < |s.frames| && s.raw.tail != Some(c) && s.frames[t].pc == Bomb(c, BombClose, why)
    ensures Inv(Goto(s, t, Bomb(c, BombSpin, why)))
  {
    hide Inv;
    Joined(s, t, c);
    Facts(s, t);
    QuietOk(s, t, Bomb(c, BombSpin, why));
  }

  lemma WakePrevOk(s: State, t: nat, c: nat, address: nat)
    requires Inv(s) && t < |s.frames| && s.frames[t].pc == Combine(c, WakePrev(address))
    ensures c < |s.frames| && Inv(DoCombine(s, t, c, WakePrev(address)))
  {
    hide Inv;
    UnparkOk(s, t, address);
    hide Unpark;
    Facts(Unpark(s, address), t);
    QuietOk(Unpark(s, address), t, Combine(c, Begin));
  }

  lemma BombWakeOk(s: State, t: nat, a: nat, address: nat, why: Why)
    requires Inv(s) && t < |s.frames| && s.frames[t].pc == Bomb(a, BombWake(address), why)
    ensures a < |s.frames| && Inv(DoBomb(s, t, a, BombWake(address), why))
  {
    hide Inv;
    UnparkOk(s, t, address);
    hide Unpark;
    Facts(Unpark(s, address), t);
    QuietOk(Unpark(s, address), t, Bomb(a, BombNext, why));
  }

  lemma BowOk(s: State, t: nat, c: nat, address: nat)
    requires Inv(s) && t < |s.frames| && s.frames[t].pc == Bow(c, address)
    ensures Inv(DoBow(s, t, c, address))
  {
    hide Inv;
    UnparkOk(s, t, address);
    hide Unpark;
    Facts(Unpark(s, address), t);
    QuietOk(Unpark(s, address), t, Last(c, Leave));
  }

  lemma LastWakeOk(s: State, t: nat, address: nat, end: End)
    requires Inv(s) && t < |s.frames| && s.frames[t].pc == LastWake(address, end)
    ensures Inv(DoLastWake(s, t, address, end))
  {
    hide Inv;
    UnparkOk(s, t, address);
    hide Unpark;
    Facts(Unpark(s, address), t);
    QuietOk(Unpark(s, address), t, After(end));
  }

  // ---------- return ----------

  lemma ReturnOk(s: State, t: nat, v: Verdict)
    requires Inv(s) && t < |s.frames| && s.frames[t].pc == Return(v)
    ensures Inv(DoReturn(s, t, v))
  {
    hide Inv;
    Facts(s, t);
    CalmStep(s, DoReturn(s, t, v), t);
  }
}
