/** What a step of one thread does to the slots of the others. */
module Effects {
  import opened Wrappers
  import opened Atomics
  import opened Machine
  import opened Invariant
  import opened CursorSteps
  import opened Progression

  /** The address on which the thread is about to make a kernel wake. */
  ghost function Waker(pc: PC): Option<nat> {
    match pc
    case Combine(_, WakePrev(address)) => Some(address)
    case Bow(_, address) => Some(address)
    case LastWake(address, _) => Some(address)
    case Bomb(_, BombWake(address), _) => Some(address)
    case _ => None
  }

  /**
   * Slot `u` as the actor `t` leaves it: at most unparked, by a kernel wake on its address; and
   * if its word was taken from SLEEPING, the actor is about to make that kernel wake.
   */
  ghost predicate Affected(s: State, s': State, t: nat, u: nat)
    requires t < |s.frames| && u < |s.frames| == |s'.frames|
  {
    var f := s.frames[u];
    var f' := s'.frames[u];
    && f'.rid == f.rid && f'.pos == f.pos && f'.task == f.task
    && (f.next.Some? ==> f'.next.Some?)
    && (f'.pc == f.pc || (f.pc == Wait(Parked) && f'.pc == Wait(Recheck) && Waker(s.frames[t].pc) == Some(u)))
    && (f'.word == f.word || f'.word != Sleeping)
    && Waker(f'.pc) == Waker(f.pc)
    && (Waker(s.frames[t].pc) == Some(u) ==> f'.pc != Wait(Parked))
    && (f'.word != f.word && f.word == Sleeping ==> Waker(s'.frames[t].pc) == Some(u))
  }

  lemma AffectedByWait(s: State, t: nat, op: WaitOp, u: nat)
    requires t < |s.frames| && u < |s.frames| && u != t && s.frames[t].pc == Wait(op)
    ensures |DoWait(s, t, op).frames| == |s.frames| && Affected(s, DoWait(s, t, op), t, u)
  {
  }

  lemma AffectedByPass(s: State, t: nat, c: nat, op: CombineOp, u: nat)
    requires t < |s.frames| && u < |s.frames| && s.frames[t].pc == Combine(c, op)
    requires c < |s.frames| && (op.Advance? || (op.Promote? && op.heir < |s.frames|))
    ensures |DoCombine(s, t, c, op).frames| == |s.frames|
    ensures u != t ==> Affected(s, DoCombine(s, t, c, op), t, u)
    ensures Cursor(DoCombine(s, t, c, op).frames[t].pc).Some?
  {
    hide DoBegin, DoExecute, DoClose, Take, Settle;
  }

  lemma AffectedByCombine(s: State, t: nat, c: nat, op: CombineOp, u: nat)
    requires t < |s.frames| && u < |s.frames| && s.frames[t].pc == Combine(c, op)
    requires c < |s.frames| && (op.Promote? ==> op.heir < |s.frames|)
    ensures |DoCombine(s, t, c, op).frames| == |s.frames|
    ensures u != t ==> Affected(s, DoCombine(s, t, c, op), t, u)
    ensures Cursor(DoCombine(s, t, c, op).frames[t].pc).Some?
  {
    hide DoAdvance, DoPromote, Logged, Use;
    if op.Advance? || op.Promote? { AffectedByPass(s, t, c, op, u); }
  }

  lemma AffectedByBomb(s: State, t: nat, a: nat, op: BombOp, why: Why, u: nat)
    requires t < |s.frames| && u < |s.frames| && s.frames[t].pc == Bomb(a, op, why)
    requires a < |s.frames|
    ensures |DoBomb(s, t, a, op, why).frames| == |s.frames|
    ensures u != t ==> Affected(s, DoBomb(s, t, a, op, why), t, u)
    ensures Cursor(DoBomb(s, t, a, op, why).frames[t].pc).Some?
  {
  }

  lemma AffectedByLast(s: State, t: nat, u: nat)
    requires t < |s.frames| && u < |s.frames| && u != t
    ensures s.frames[t].pc.Bow? ==>
              var s' := DoBow(s, t, s.frames[t].pc.cursor, s.frames[t].pc.address);
              |s'.frames| == |s.frames| && Affected(s, s', t, u)
    ensures s.frames[t].pc.Last? && s.frames[t].pc.cursor < |s.frames| ==>
              var s' := DoLast(s, t, s.frames[t].pc.cursor, s.frames[t].pc.end);
              |s'.frames| == |s.frames| && Affected(s, s', t, u)
    ensures s.frames[t].pc.LastWake? ==>
              var s' := DoLastWake(s, t, s.frames[t].pc.address, s.frames[t].pc.end);
              |s'.frames| == |s.frames| && Affected(s, s', t, u)
  {
  }

  lemma OtherSlots(s: State, a: Action, u: nat)
    requires Inv(s) && Enabled(s, a) && u < |s.frames| && u != a.slot
    ensures |Next(s, a).frames| == |s.frames|
    ensures Affected(s, Next(s, a), a.slot, u) || (a.Spurious? && Next(s, a).frames[u] == s.frames[u])
  {
    hide Inv, DoWait, DoCombine, DoBomb, DoBow, DoLast, DoLastWake;
    if a.Step? {
      var t := a.slot;
      SoundOk(s, t);
      match s.frames[t].pc
      case Wait(op) => AffectedByWait(s, t, op, u);
      case Combine(c, op) =>
        if op.Promote? { SuccessorFacts(s, t, op.heir); }
        AffectedByCombine(s, t, c, op, u);
      case Bomb(c, op, why) => AffectedByBomb(s, t, c, op, why, u);
      case Bow(_, _) => AffectedByLast(s, t, u);
      case Last(_, _) => AffectedByLast(s, t, u);
      case LastWake(_, _) => AffectedByLast(s, t, u);
      case _ =>
    }
  }

  // ---------- wake-ups are not lost ----------

  /** A thread parked on a word that is no longer SLEEPING is about to be woken. */
  ghost predicate NoLostWake(s: State) {
    forall t: nat | t < |s.frames| && s.frames[t].pc == Wait(Parked) && s.frames[t].word != Sleeping ::
      exists u: nat :: u < |s.frames| && Waker(s.frames[u].pc) == Some(t)
  }

  /** A thread parks only while its word is SLEEPING. */
  lemma ParksAsleep(s: State, a: Action)
    requires Inv(s) && Enabled(s, a) && |Next(s, a).frames| == |s.frames|
             && Next(s, a).frames[a.slot].pc == Wait(Parked)
    ensures Next(s, a).frames[a.slot].word == Sleeping
  {
    hide Inv, SlotOk, DoCombine, DoBomb, Settle, Take, Early, Answered;
    if a.Step? {
      var t := a.slot;
      SoundOk(s, t);
      match s.frames[t].pc
      case Combine(c, op) =>
        if op.Promote? { SuccessorFacts(s, t, op.heir); }
        AffectedByCombine(s, t, c, op, t);
      case Bomb(c, op, why) => AffectedByBomb(s, t, c, op, why, t);
      case _ =>
    }
  }

  lemma NoLostWakeOk(s: State, a: Action)
    requires Inv(s) && Enabled(s, a) && NoLostWake(s)
    ensures NoLostWake(Next(s, a))
  {
    hide Inv, Next;
    var s' := Next(s, a);
    forall t: nat | t < |s'.frames| && s'.frames[t].pc == Wait(Parked) && s'.frames[t].word != Sleeping
      ensures exists u: nat :: u < |s'.frames| && Waker(s'.frames[u].pc) == Some(t)
    {
      assert |s'.frames| == |s.frames| by { NextKept(s, a); }
      if t == a.slot { ParksAsleep(s, a); assert false; }
      OtherSlots(s, a, t);
      if s.frames[t].word == Sleeping {
        assert Waker(s'.frames[a.slot].pc) == Some(t);
      } else {
        var u: nat :| u < |s.frames| && Waker(s.frames[u].pc) == Some(t);
        if u != a.slot { OtherSlots(s, a, u); }
        assert Waker(s'.frames[u].pc) == Some(t);
      }
    }
  }
}
