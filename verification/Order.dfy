/** The queue is served in order, and whoever heads it is overtaken only by those who were there first. */
module Order {
  import opened Wrappers
  import opened Machine
  import opened Invariant
  import opened Steps
  import opened CursorSteps
  import opened Progression
  import opened Runs
  import opened Effects

  /** Where in the log the closure at place `i` is. */
  ghost function RunOf(s: State, i: nat): Option<nat>
    requires i < |s.h.line|
  {
    if s.h.line[i].rid < |s.h.calls| then s.h.calls[s.h.line[i].rid].run else None
  }

  /** The executed places are a prefix of the queue, and were executed in its order. */
  ghost predicate InOrder(s: State) {
    && s.h.done <= |s.h.line|
    && (forall i: nat | i < |s.h.line| :: RunOf(s, i).Some? <==> i < s.h.done)
    && (forall i: nat, j: nat | i < j < s.h.done && RunOf(s, i).Some? && RunOf(s, j).Some? ::
          RunOf(s, i).value < RunOf(s, j).value)
  }

  lemma RunOfOk(s: State, i: nat)
    requires Inv(s) && i < |s.h.line|
    ensures RunOf(s, i).Some? <==> i < s.h.done
    ensures RunOf(s, i).Some? ==> RunOf(s, i).value < |s.h.log|
  {
    hide Inv;
    Core(s);
    Spot(s, i);
    Recorded(s, s.h.line[i].rid);
  }

  /** Only the execution of a cursor adds to the executed places. */
  lemma DoneStep(s: State, a: Action)
    requires Inv(s) && Enabled(s, a)
    ensures var s' := Next(s, a);
            || s'.h.done == s.h.done
            || (s'.h.done == s.h.done + 1 <= |s.h.line| && s.h.done < |s'.h.line|
                && RunOf(s', s.h.done) == Some(|s.h.log|))
  {
    hide Inv;
    if a.Step? && s.frames[a.slot].pc.Combine? && s.frames[a.slot].pc.op.Execute? {
      var t, c := a.slot, s.frames[a.slot].pc.cursor;
      SoundOk(s, t);
      Unlogged(s, t, c);
      Spot(s, s.frames[c].pos);
    }
  }

  lemma InOrderOk(s: State, a: Action)
    requires Inv(s) && Enabled(s, a) && InOrder(s)
    ensures InOrder(Next(s, a))
  {
    hide Inv, Next;
    var s' := Next(s, a);
    NextOk(s, a);
    NextKept(s, a);
    DoneStep(s, a);
    Core(s');
    forall i: nat | i < |s'.h.line| ensures RunOf(s', i).Some? <==> i < s'.h.done { RunOfOk(s', i); }
    forall i: nat, j: nat | i < j < s'.h.done && RunOf(s', i).Some? && RunOf(s', j).Some?
      ensures RunOf(s', i).value < RunOf(s', j).value
    {
      RunOfOk(s, i);
      if j < s.h.done { RunOfOk(s, j); }
    }
  }

  // ---------- bypass ----------

  /** The head of the open chain is still to start. */
  ghost predicate HeadWaits(s: State) {
    s.h.start < |s.h.line| && s.h.front == s.h.start
  }

  /** Whatever has run since the head joined was past the tail check when it did. */
  ghost predicate NoBypass(s: State) {
    HeadWaits(s) ==>
      && (forall k: nat | s.h.openedAt <= k < |s.h.log| :: s.h.log[k].rid in s.h.early)
      && (forall t: nat | t < |s.frames| && IsEarly(s.frames[t].pc) :: s.frames[t].rid in s.h.early)
  }

  /** Nobody gets past the tail check once the tail is taken. */
  lemma EarlyStep(s: State, a: Action, u: nat)
    requires Inv(s) && Enabled(s, a) && u < |s.frames| == |Next(s, a).frames|
    requires IsEarly(Next(s, a).frames[u].pc)
    ensures (IsEarly(s.frames[u].pc) && Next(s, a).frames[u].rid == s.frames[u].rid) || s.raw.tail.None?
  {
    hide Inv, DoCombine, DoBomb;
    if u != a.slot {
      OtherSlots(s, a, u);
    } else if a.Step? {
      SoundOk(s, u);
      match s.frames[u].pc
      case Combine(c, op) =>
        if op.Promote? { SuccessorFacts(s, u, op.heir); }
        AffectedByCombine(s, u, c, op, u);
      case Bomb(c, op, why) => AffectedByBomb(s, u, c, op, why, u);
      case _ =>
    }
  }

  lemma HeadStep(s: State, a: Action)
    requires Inv(s) && Enabled(s, a) && HeadWaits(Next(s, a))
    requires !(a.Step? && s.frames[a.slot].pc.Enqueue? && s.raw.tail.None?)
    ensures HeadWaits(s) && Next(s, a).h.early == s.h.early && Next(s, a).h.openedAt == s.h.openedAt
  {
    hide Inv, DoCombine, DoBomb;
    Core(s);
    if a.Step? {
      var t := a.slot;
      match s.frames[t].pc
      case Combine(c, op) => HeadStepCombine(s, t, c, op);
      case Bomb(c, op, why) => HeadStepBomb(s, t, c, op, why);
      case _ =>
    }
  }

  lemma HeadStepCombine(s: State, t: nat, c: nat, op: CombineOp)
    requires Inv(s) && t < |s.frames| && s.frames[t].pc == Combine(c, op)
    ensures c < |s.frames| && (op.Promote? ==> op.heir < |s.frames|) && !HeadWaits(DoCombine(s, t, c, op))
  {
    hide Inv;
    Core(s);
    CursorFacts(s, t);
    if op.Promote? { SuccessorFacts(s, t, op.heir); }
  }

  lemma HeadStepBomb(s: State, t: nat, c: nat, op: BombOp, why: Why)
    requires Inv(s) && t < |s.frames| && s.frames[t].pc == Bomb(c, op, why)
    ensures c < |s.frames| && !HeadWaits(DoBomb(s, t, c, op, why))
  {
    hide Inv;
    Core(s);
    CursorFacts(s, t);
  }

  lemma LogStep(s: State, a: Action)
    requires Inv(s) && Enabled(s, a) && HeadWaits(s)
    ensures var s' := Next(s, a);
            || s'.h.log == s.h.log
            || (a.slot < |s.frames| && IsEarly(s.frames[a.slot].pc)
                && exists r: Run :: s'.h.log == s.h.log + [r] && r.rid == s.frames[a.slot].rid)
  {
    hide Inv;
    Core(s);
    if a.Step? {
      var t := a.slot;
      match s.frames[t].pc
      case Fast(FastRun(seen)) =>
        assert Next(s, a).h.log == s.h.log + [Run(s.frames[t].rid, s.frames[t].task, s.frames[t].task(seen).out)];
      case Combine(c, op) => SoundOk(s, t); assert RoleOk(s, t) by { Facts(s, t); }
      case _ =>
    }
  }

  lemma NoBypassOk(s: State, a: Action)
    requires Inv(s) && Enabled(s, a) && NoBypass(s)
    ensures NoBypass(Next(s, a))
  {
    hide Inv;
    if a.Step? && s.frames[a.slot].pc.Enqueue? && s.raw.tail.None? {
      EnqueueHead(s, a.slot);
    } else {
      NoBypassKept(s, a);
    }
  }

  /** A node that joins an empty queue is overtaken by nothing yet. */
  lemma EnqueueHead(s: State, t: nat)
    requires Inv(s) && t < |s.frames| && s.frames[t].pc.Enqueue? && s.raw.tail.None?
    ensures NoBypass(DoEnqueue(s, t))
  {
    hide Inv;
    var s' := DoEnqueue(s, t);
    forall u: nat | u < |s'.frames| && IsEarly(s'.frames[u].pc) ensures s'.frames[u].rid in s'.h.early {
      assert IsEarly(s.frames[u].pc);
    }
  }

  lemma NoBypassKept(s: State, a: Action)
    requires Inv(s) && Enabled(s, a) && NoBypass(s)
    requires !(a.Step? && s.frames[a.slot].pc.Enqueue? && s.raw.tail.None?)
    ensures NoBypass(Next(s, a))
  {
    hide Inv, Next;
    var s' := Next(s, a);
    Core(s);
    if HeadWaits(s') {
      assert |s'.frames| == |s.frames| by { NextKept(s, a); }
      HeadStep(s, a);
      LogStep(s, a);
      forall t: nat | t < |s'.frames| && IsEarly(s'.frames[t].pc) ensures s'.frames[t].rid in s'.h.early {
        EarlyStep(s, a, t);
      }
    }
  }
}
