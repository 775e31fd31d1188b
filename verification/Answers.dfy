/** What `run` answers: when it delivers, when it refuses, and when it unwinds. */
module Answers {
  import opened Wrappers
  import opened Tasks
  import opened Atomics
  import opened Machine
  import opened Invariant
  import opened Steps
  import opened OwnerSteps
  import opened CursorSteps
  import opened Progression
  import opened Effects
  import opened Theorems

  /** The node of request `r` has been swapped into the tail at some time. */
  ghost predicate Joined(s: State, r: nat) {
    exists i: nat :: i < |s.h.line| && s.h.line[i].rid == r
  }

  /** The closure of some queued request has panicked. */
  ghost predicate Broken(s: State) {
    exists p: nat :: p < |s.h.log| && s.h.log[p].out.Panicked? && Joined(s, s.h.log[p].rid)
  }

  /** The step is the end of a queued closure that panics. */
  ghost predicate Breaks(s: State, a: Action) {
    && a.Step? && a.slot < |s.frames| && s.frames[a.slot].pc.Combine? && s.frames[a.slot].pc.op.Execute?
    && s.frames[a.slot].pc.cursor < |s.frames|
    && s.frames[s.frames[a.slot].pc.cursor].task(s.frames[a.slot].pc.op.seen).out.Panicked?
  }

  /** Without `std` the panic unwinds the thread that executes the closure. */
  ghost predicate Unwinds(s: State, a: Action) {
    s.mode == NoStd && Breaks(s, a)
  }

  // ---------- places of the queue ----------

  /** A place belongs to a request that has returned, or is in line. */
  ghost predicate PlaceTaken(s: State, i: nat)
    requires i < |s.h.line|
  {
    var e := s.h.line[i];
    && e.rid < |s.h.calls|
    && (s.h.calls[e.rid].ret.None? ==> e.slot < |s.frames| && InLine(s.frames[e.slot]) && s.frames[e.slot].rid == e.rid)
  }

  ghost predicate PlacesTaken(s: State) {
    forall i: nat | i < |s.h.line| :: PlaceTaken(s, i)
  }

  /** A request whose thread has not swapped its node in has no place. */
  lemma NotJoined(s: State, t: nat)
    requires Inv(s) && PlacesTaken(s) && t < |s.frames| && !s.frames[t].pc.Idle? && !InLine(s.frames[t])
    ensures !Joined(s, s.frames[t].rid)
  {
    hide Inv;
    Facts(s, t);
    forall i: nat | i < |s.h.line| ensures s.h.line[i].rid != s.frames[t].rid {
      assert PlaceTaken(s, i);
      if s.h.line[i].rid == s.frames[t].rid { Facts(s, s.h.line[i].slot); }
    }
  }

  lemma InLineJoined(s: State, t: nat)
    requires Inv(s) && t < |s.frames| && InLine(s.frames[t])
    ensures Joined(s, s.frames[t].rid)
  {
    hide Inv;
    assert IdentityOk(s, t) by { Facts(s, t); }
  }

  /** What the actor does with its request. */
  ghost predicate StaysInLine(s: State, s': State, t: nat)
    requires t < |s.frames| == |s'.frames|
  {
    var f, f' := s.frames[t], s'.frames[t];
    && (!f.pc.Idle? ==> f'.rid == f.rid)
    && (InLine(f) ==> InLine(f') || (f.rid < |s'.h.calls| && s'.h.calls[f.rid].ret.Some?))
  }

  lemma ActorStays(s: State, a: Action)
    requires Inv(s) && Enabled(s, a)
    ensures |Next(s, a).frames| == |s.frames| && StaysInLine(s, Next(s, a), a.slot)
  {
    hide Inv, DoCombine, DoBomb, DoReturn;
    var t := a.slot;
    SoundOk(s, t);
    if a.Step? && (s.frames[t].pc.Combine? || s.frames[t].pc.Bomb? || s.frames[t].pc.Return?) {
      match s.frames[t].pc
      case Combine(c, op) => CombineStays(s, t, c, op);
      case Bomb(c, op, why) => BombStays(s, t, c, op, why);
      case Return(verdict) => ReturnStays(s, t, verdict);
    } else if a.Step? && InLine(s.frames[t]) {
      EndStays(s, t);
    } else {
      JoinStays(s, a);
    }
  }

  lemma JoinStays(s: State, a: Action)
    requires Enabled(s, a) && (a.Step? ==> !InLine(s.frames[a.slot]))
    ensures |Next(s, a).frames| == |s.frames| && StaysInLine(s, Next(s, a), a.slot)
  {
    hide DoWait, DoCombine, DoBomb, DoLink, DoAcquire, DoBow, DoLast, DoLastWake, DoUnlock, DoReturn;
    hide Use, Logged, Answered, Lined, Early;
  }

  lemma EndStays(s: State, t: nat)
    requires Inv(s) && Enabled(s, Step(t)) && InLine(s.frames[t])
    requires !s.frames[t].pc.Combine? && !s.frames[t].pc.Bomb? && !s.frames[t].pc.Return?
    ensures |Next(s, Step(t)).frames| == |s.frames|
    ensures Next(s, Step(t)).frames[t].rid == s.frames[t].rid && InLine(Next(s, Step(t)).frames[t])
  {
    hide Inv, DoCombine, DoBomb, DoReturn, DoPeekTail, DoFastLock, DoFastBegin, DoFastRun, DoFastDrop, DoEnqueue;
    hide Settle, Take, Use;
    SoundOk(s, t);
  }

  lemma CombineStays(s: State, t: nat, c: nat, op: CombineOp)
    requires Inv(s) && t < |s.frames| && s.frames[t].pc == Combine(c, op)
    ensures c < |s.frames| && (op.Promote? ==> op.heir < |s.frames|)
    ensures var s' := DoCombine(s, t, c, op);
            |s'.frames| == |s.frames| && s'.frames[t].rid == s.frames[t].rid && InLine(s'.frames[t])
  {
    hide Inv, Settle, Take, Use, Logged;
    SoundOk(s, t);
    if op.Promote? { SuccessorFacts(s, t, op.heir); }
  }

  lemma BombStays(s: State, t: nat, c: nat, op: BombOp, why: Why)
    requires Inv(s) && t < |s.frames| && s.frames[t].pc == Bomb(c, op, why)
    ensures c < |s.frames|
    ensures var s' := DoBomb(s, t, c, op, why);
            |s'.frames| == |s.frames| && s'.frames[t].rid == s.frames[t].rid && InLine(s'.frames[t])
  {
    hide Inv, Settle, Take;
    SoundOk(s, t);
  }

  lemma ReturnStays(s: State, t: nat, verdict: Verdict)
    requires t < |s.frames| && s.frames[t].rid < |s.h.calls|
    ensures var s' := DoReturn(s, t, verdict);
            && |s'.frames| == |s.frames| && s'.frames[t].rid == s.frames[t].rid < |s'.h.calls|
            && s'.h.calls[s.frames[t].rid].ret.Some?
  {
  }

  /** The queue grows by the actor's node, if at all. */
  lemma LineStep(s: State, a: Action)
    requires Inv(s) && Enabled(s, a)
    ensures |Next(s, a).frames| == |s.frames|
    ensures var s' := Next(s, a);
            || s'.h.line == s.h.line
            || (&& a.Step? && s.frames[a.slot].pc.Enqueue? && InLine(s'.frames[a.slot])
                && s'.frames[a.slot].rid == s.frames[a.slot].rid < |s'.h.calls| && s'.h.log == s.h.log
                && exists head :: s'.h.line == s.h.line + [Entry(a.slot, s.frames[a.slot].rid, head)])
  {
    hide Inv, DoCombine, DoBomb;
    Facts(s, a.slot);
    if a.Step? && (s.frames[a.slot].pc.Combine? || s.frames[a.slot].pc.Bomb?) { DriverLine(s, a.slot); }
  }

  lemma DriverLine(s: State, t: nat)
    requires Inv(s) && t < |s.frames| && (s.frames[t].pc.Combine? || s.frames[t].pc.Bomb?)
    ensures |Next(s, Step(t)).frames| == |s.frames| && Next(s, Step(t)).h.line == s.h.line
  {
    hide Inv;
    SoundOk(s, t);
  }

  lemma PlacesTakenKept(s: State, a: Action)
    requires Inv(s) && Enabled(s, a) && PlacesTaken(s)
    ensures PlacesTaken(Next(s, a))
  {
    hide Inv, Next;
    var s' := Next(s, a);
    NextKept(s, a);
    LineStep(s, a);
    forall i: nat | i < |s'.h.line| ensures PlaceTaken(s', i) {
      if i < |s.h.line| {
        assert PlaceTaken(s, i) && s'.h.line[i] == s.h.line[i];
        var e := s.h.line[i];
        assert RequestKept(s.h.calls[e.rid], s'.h.calls[e.rid]);
        if s'.h.calls[e.rid].ret.None? {
          if e.slot == a.slot { ActorStays(s, a); } else { OtherSlots(s, a, e.slot); }
        }
      }
    }
  }

  // ---------- what breaks a lock ----------

  /** The log grows by the closure that ends, if at all. */
  lemma EntryStep(s: State, a: Action)
    requires Inv(s) && Enabled(s, a)
    ensures var s' := Next(s, a);
            || s'.h.log == s.h.log
            || (a.Step? && s.frames[a.slot].pc.Fast? && exists task, out ::
                  s'.h.log == s.h.log + [Run(s.frames[a.slot].rid, task, out)])
            || (a.Step? && s.frames[a.slot].pc.Combine? && s.frames[a.slot].pc.op.Execute?)
    ensures a.Step? && s.frames[a.slot].pc.Combine? && s.frames[a.slot].pc.op.Execute? ==>
              var c := s.frames[a.slot].pc.cursor;
              && c < |s.frames| && InLine(s.frames[c])
              && var task := s.frames[c].task;
                 Next(s, a).h.log == s.h.log + [Run(s.frames[c].rid, task, task(s.frames[a.slot].pc.op.seen).out)]
  {
    hide Inv, DoBomb;
    SoundOk(s, a.slot);
    if a.Step? {
      match s.frames[a.slot].pc
      case Fast(FastRun(seen)) =>
        assert Next(s, a).h.log == s.h.log + [Run(s.frames[a.slot].rid, s.frames[a.slot].task,
                                                  s.frames[a.slot].task(seen).out)];
      case Bomb(c, op, why) => BombLog(s, a.slot);
      case _ =>
    }
  }

  lemma BombLog(s: State, t: nat)
    requires Inv(s) && t < |s.frames| && s.frames[t].pc.Bomb?
    ensures Next(s, Step(t)).h.log == s.h.log
  {
    hide Inv;
    SoundOk(s, t);
  }

  /** A queued panic is logged by the step that is one, and by no other. */
  lemma BrokenStep(s: State, a: Action)
    requires Inv(s) && Enabled(s, a) && PlacesTaken(s)
    ensures Broken(Next(s, a)) <==> Broken(s) || Breaks(s, a)
  {
    hide Inv, Next, Joined;
    var s' := Next(s, a);
    NextKept(s, a);
    EntryStep(s, a);
    LineStep(s, a);
    forall r: nat | Joined(s, r) ensures Joined(s', r) { JoinedKept(s, s', r); }
    if Broken(s) {
      var p: nat :| p < |s.h.log| && s.h.log[p].out.Panicked? && Joined(s, s.h.log[p].rid);
      assert s'.h.log[p] == s.h.log[p];
    }
    if Breaks(s, a) {
      var c := s.frames[a.slot].pc.cursor;
      InLineJoined(s, c);
      assert s'.h.log[|s.h.log|].rid == s.frames[c].rid;
    }
    if Broken(s') && !Breaks(s, a) {
      var p: nat :| p < |s'.h.log| && s'.h.log[p].out.Panicked? && Joined(s', s'.h.log[p].rid);
      if p < |s.h.log| { JoinedBefore(s, a, p); } else { NewlyLogged(s, a); }
    }
  }

  lemma JoinedKept(s: State, s': State, r: nat)
    requires Joined(s, r) && s.h.line <= s'.h.line
    ensures Joined(s', r)
  {
    var i: nat :| i < |s.h.line| && s.h.line[i].rid == r;
    assert s'.h.line[i].rid == r;
  }

  /** A closure that has been executed belongs to a request that does not join any more. */
  lemma JoinedBefore(s: State, a: Action, p: nat)
    requires Inv(s) && Enabled(s, a) && p < |s.h.log| && Joined(Next(s, a), s.h.log[p].rid)
    ensures Joined(s, s.h.log[p].rid)
  {
    hide Inv, Next;
    LineStep(s, a);
    LogEntry(s, p);
    var s' := Next(s, a);
    if s'.h.line != s.h.line {
      var i: nat :| i < |s'.h.line| && s'.h.line[i].rid == s.h.log[p].rid;
      if i < |s.h.line| {
        assert s.h.line[i].rid == s.h.log[p].rid;
      } else {
        assert ClosureOk(s, a.slot) by { Facts(s, a.slot); }
      }
    }
  }

  /** A closure that ends on the fast path belongs to a request without a place. */
  lemma NewlyLogged(s: State, a: Action)
    requires Inv(s) && Enabled(s, a) && PlacesTaken(s) && !Breaks(s, a)
    requires |Next(s, a).h.log| > |s.h.log| && Next(s, a).h.log[|s.h.log|].out.Panicked?
    ensures !Joined(Next(s, a), Next(s, a).h.log[|s.h.log|].rid)
  {
    hide Inv, Next;
    EntryStep(s, a);
    LineStep(s, a);
    if s.frames[a.slot].pc.Fast? { NotJoined(s, a.slot); }
  }

  /** The bomb that is about to store POISONED because of a panic. */
  ghost predicate GoingOff(pc: PC) {
    pc.Bomb? && pc.bomb.Poison? && pc.why == Unwinding
  }

  /** Without `std` the lock is dead, or about to be, exactly if a queued closure has panicked. */
  ghost predicate DeadIfBroken(s: State) {
    && (s.raw.status == Dead ==> Broken(s))
    && (forall t: nat | t < |s.frames| && Reason(s.frames[t].pc).Some? :: Broken(s))
    && (s.mode == NoStd && Broken(s) ==>
          s.raw.status == Dead || exists t: nat :: t < |s.frames| && GoingOff(s.frames[t].pc))
  }

  /** How the actor's step changes its part in this. */
  lemma ActorReason(s: State, a: Action)
    requires Inv(s) && Enabled(s, a)
    ensures |Next(s, a).frames| == |s.frames| && ReasonMoves(s, Next(s, a), a.slot, Unwinds(s, a))
  {
    hide Inv, DoWait, DoCombine, DoBomb;
    if a.Step? && (s.frames[a.slot].pc.Wait? || s.frames[a.slot].pc.Combine? || s.frames[a.slot].pc.Bomb?) {
      match s.frames[a.slot].pc
      case Wait(op) => WaitReason(s, a.slot);
      case Combine(c, op) => CombineReason(s, a.slot, c, op);
      case Bomb(c, op, why) => BombReason(s, a.slot);
    } else if a.Step? && InLine(s.frames[a.slot]) {
      EndReason(s, a.slot);
    } else {
      JoinReason(s, a);
    }
  }

  ghost predicate ReasonMoves(s: State, s': State, t: nat, unwinds: bool)
    requires t < |s.frames| == |s'.frames|
  {
    var pc, pc' := s.frames[t].pc, s'.frames[t].pc;
    && (Reason(pc').Some? ==> Reason(pc') == Reason(pc) || unwinds || s.raw.status == Dead)
    && (Reason(pc') == Some(Unwinding) <==> unwinds || (Reason(pc) == Some(Unwinding) && !pc'.Idle?))
    && (unwinds ==> GoingOff(pc'))
    && (GoingOff(pc) ==> s'.raw.status == Dead)
    && (s'.raw.status == Dead ==> s.raw.status == Dead || Reason(pc).Some?)
  }

  lemma JoinReason(s: State, a: Action)
    requires Inv(s) && Enabled(s, a) && (a.Step? ==> !InLine(s.frames[a.slot]))
    ensures |Next(s, a).frames| == |s.frames| && ReasonMoves(s, Next(s, a), a.slot, false)
  {
    hide Inv, DoWait, DoCombine, DoBomb, DoLink, DoAcquire, DoBow, DoLast, DoLastWake, DoUnlock, DoReturn;
    hide Use, Logged, Answered, Lined, Early;
  }

  lemma EndReason(s: State, t: nat)
    requires Inv(s) && Enabled(s, Step(t)) && InLine(s.frames[t])
    requires !s.frames[t].pc.Wait? && !s.frames[t].pc.Combine? && !s.frames[t].pc.Bomb?
    ensures |Next(s, Step(t)).frames| == |s.frames| && ReasonMoves(s, Next(s, Step(t)), t, false)
  {
    hide Inv, DoWait, DoCombine, DoBomb, DoPeekTail, DoFastLock, DoFastBegin, DoFastRun, DoFastDrop, DoEnqueue;
    hide Settle, Take, Use, Answered, ClosureOk;
    SoundOk(s, t);
    assert RoleOk(s, t) by { Facts(s, t); }
  }

  lemma WaitReason(s: State, t: nat)
    requires t < |s.frames| && s.frames[t].pc.Wait?
    ensures var s' := DoWait(s, t, s.frames[t].pc.wait);
            |s'.frames| == |s.frames| && Reason(s'.frames[t].pc).None? && s'.raw == s.raw && !s'.frames[t].pc.Idle?
  {
  }

  lemma CombineReason(s: State, t: nat, c: nat, op: CombineOp)
    requires Inv(s) && t < |s.frames| && s.frames[t].pc == Combine(c, op)
    ensures c < |s.frames| && (op.Promote? ==> op.heir < |s.frames|)
    ensures var s' := DoCombine(s, t, c, op);
            && |s'.frames| == |s.frames| && s'.raw.status == s.raw.status && !s'.frames[t].pc.Idle?
            && if Unwinds(s, Step(t)) then GoingOff(s'.frames[t].pc) else Reason(s'.frames[t].pc).None?
  {
    hide Inv, Settle, Take, Use, Logged;
    SoundOk(s, t);
    if op.Promote? { SuccessorFacts(s, t, op.heir); }
  }

  lemma BombReason(s: State, t: nat)
    requires Inv(s) && t < |s.frames| && s.frames[t].pc.Bomb?
    ensures s.frames[t].pc.cursor < |s.frames|
    ensures var pc := s.frames[t].pc;
            var s' := DoBomb(s, t, pc.cursor, pc.bomb, pc.why);
            && |s'.frames| == |s.frames| && Reason(s'.frames[t].pc) == Reason(pc) && !s'.frames[t].pc.Idle?
            && s'.raw.status == if pc.bomb.Poison? then Dead else s.raw.status
  {
    hide Inv, Settle, Take;
    SoundOk(s, t);
  }

  lemma DeadIfBrokenKept(s: State, a: Action)
    requires Inv(s) && Enabled(s, a) && PlacesTaken(s) && DeadIfBroken(s)
    ensures DeadIfBroken(Next(s, a))
  {
    hide Inv, Next, Broken, Breaks;
    var s', t := Next(s, a), a.slot;
    BrokenStep(s, a);
    ActorReason(s, a);
    NextKept(s, a);
    forall u: nat | u < |s.frames| && u != t ensures Reason(s'.frames[u].pc) == Reason(s.frames[u].pc)
      ensures GoingOff(s'.frames[u].pc) == GoingOff(s.frames[u].pc)
    {
      OtherSlots(s, a, u);
    }
  }

  // ---------- what a request answers ----------

  /** The outcome of request `r` has been delivered: its closure ran, and did not cancel its own queue. */
  ghost predicate Delivered(s: State, r: nat)
    requires r < |s.h.calls|
  {
    var c := s.h.calls[r];
    && c.run.Some? && c.run.value < |s.h.log|
    && (s.mode == Std || !s.h.log[c.run.value].out.Panicked? || !Joined(s, r))
  }

  ghost function AnswerOf(s: State, r: nat, crashed: bool): Answer
    requires r < |s.h.calls|
  {
    if crashed then Crashed
    else if Delivered(s, r) then Got(s.h.log[s.h.calls[r].run.value].out)
    else Denied
  }

  /** The requests in `crashed` are those whose thread has been unwound. */
  ghost predicate Answering(s: State, crashed: set<nat>) {
    && (forall r | r in crashed :: r < |s.h.calls|)
    && (forall t: nat | t < |s.frames| && !s.frames[t].pc.Idle? ::
          Reason(s.frames[t].pc) == Some(Unwinding) <==> s.frames[t].rid in crashed)
    && (forall r: nat | r < |s.h.calls| && s.h.calls[r].ret.Some? ::
          && s.h.calls[r].ret.value.answer == AnswerOf(s, r, r in crashed)
          && (s.h.calls[r].ret.value.answer.Got? || (s.mode == NoStd && Broken(s))))
  }

  ghost function Crashes(s: State, a: Action): set<nat> {
    if Unwinds(s, a) then {s.frames[a.slot].rid} else {}
  }

  /** What a returning request answers, from its own state. */
  lemma ReturnAnswer(s: State, a: Action, r: nat)
    requires Inv(s) && Enabled(s, a) && PlacesTaken(s) && DeadIfBroken(s)
    requires r < |s.h.calls| && s.h.calls[r].ret.None?
    requires r < |Next(s, a).h.calls| && Next(s, a).h.calls[r].ret.Some?
    ensures r == s.frames[a.slot].rid && !s.frames[a.slot].pc.Idle?
    ensures var answer := Next(s, a).h.calls[r].ret.value.answer;
            && answer == AnswerOf(s, r, Reason(s.frames[a.slot].pc) == Some(Unwinding))
            && (answer.Got? || (s.mode == NoStd && Broken(s)))
    ensures Next(s, a).h.calls[r].run == s.h.calls[r].run
  {
    hide Inv, Broken, DoWait, DoCombine, DoBomb;
    var t := a.slot;
    Facts(s, t);
    SoundOk(s, t);
    match s.frames[t].pc
    case Wait(op) => WaitCalls(s, t);
    case Combine(c, op) => DriverCalls(s, t, r);
    case Bomb(c, op, why) => DriverCalls(s, t, r);
    case Fast(op) => NotJoined(s, t);
    case Return(verdict) => InLineJoined(s, t);
    case _ =>
  }

  lemma WaitCalls(s: State, t: nat)
    requires t < |s.frames| && s.frames[t].pc.Wait?
    ensures DoWait(s, t, s.frames[t].pc.wait).h.calls == s.h.calls
  {
  }

  lemma DriverCalls(s: State, t: nat, r: nat)
    requires Inv(s) && t < |s.frames| && (s.frames[t].pc.Combine? || s.frames[t].pc.Bomb?) && r < |s.h.calls|
    ensures r < |Next(s, Step(t)).h.calls| && Next(s, Step(t)).h.calls[r].ret == s.h.calls[r].ret
  {
    hide Inv;
    SoundOk(s, t);
    if Heir(s.frames[t].pc).Some? { SuccessorFacts(s, t, Heir(s.frames[t].pc).value); }
  }

  /** What a request answers does not change any more once its closure has run, or cannot run. */
  lemma AnswerStays(s: State, a: Action, r: nat, crashed: bool)
    requires Inv(s) && Enabled(s, a) && r < |s.h.calls|
    requires r < |Next(s, a).h.calls| && Next(s, a).h.calls[r].run == s.h.calls[r].run
    ensures AnswerOf(Next(s, a), r, crashed) == AnswerOf(s, r, crashed)
  {
    hide Inv, Next, Joined;
    var s' := Next(s, a);
    NextKept(s, a);
    Recorded(s, r);
    if Joined(s, r) { JoinedKept(s, s', r); }
    if s.h.calls[r].run.Some? && Joined(s', r) { JoinedBefore(s, a, s.h.calls[r].run.value); }
  }

  lemma ReturnedStays(s: State, a: Action, crashed: set<nat>, r: nat)
    requires Inv(s) && Enabled(s, a) && PlacesTaken(s) && DeadIfBroken(s) && Answering(s, crashed)
    requires r < |Next(s, a).h.calls| && Next(s, a).h.calls[r].ret.Some?
    ensures r < |s.h.calls|
    ensures var answer := Next(s, a).h.calls[r].ret.value.answer;
            && answer == AnswerOf(Next(s, a), r, r in crashed + Crashes(s, a))
            && (answer.Got? || (Next(s, a).mode == NoStd && Broken(Next(s, a))))
  {
    hide Inv, Next, Broken, Breaks, AnswerOf;
    var s' := Next(s, a);
    NextKept(s, a);
    BrokenStep(s, a);
    NewCalls(s, a, r);
    assert RequestKept(s.h.calls[r], s'.h.calls[r]);
    if s.h.calls[r].ret.None? { ReturnAnswer(s, a, r); }
    AnswerStays(s, a, r, r in crashed);
    if Unwinds(s, a) { CrashLater(s, a, r); }
  }

  /** A new request has not returned. */
  lemma NewCalls(s: State, a: Action, r: nat)
    requires Inv(s) && Enabled(s, a) && r < |Next(s, a).h.calls|
    ensures |s.h.calls| <= |Next(s, a).h.calls|
    ensures r >= |s.h.calls| ==> a.Call? && r == |s.h.calls| && Next(s, a).h.calls[r].ret.None?
  {
    hide Inv, DoWait, DoCombine, DoBomb;
    SoundOk(s, a.slot);
    if a.Step? {
      match s.frames[a.slot].pc
      case Wait(op) => WaitCalls(s, a.slot);
      case Combine(c, op) => DriverRequests(s, a.slot);
      case Bomb(c, op, why) => DriverRequests(s, a.slot);
      case _ =>
    }
  }

  lemma CallFacts(s: State, t: nat, task: Task)
    requires t < |s.frames|
    ensures |Next(s, Call(t, task)).frames| == |s.frames|
    ensures Next(s, Call(t, task)).frames[t].rid == |s.h.calls| && Next(s, Call(t, task)).frames[t].pc.PeekTail?
  {
  }

  lemma DriverRequests(s: State, t: nat)
    requires Inv(s) && t < |s.frames| && (s.frames[t].pc.Combine? || s.frames[t].pc.Bomb?)
    ensures |Next(s, Step(t)).h.calls| == |s.h.calls|
  {
    hide Inv;
    SoundOk(s, t);
  }

  /** A thread that is unwound has not returned. */
  lemma CrashLater(s: State, a: Action, r: nat)
    requires Inv(s) && Enabled(s, a) && Unwinds(s, a) && r < |s.h.calls| && r < |Next(s, a).h.calls|
    requires Next(s, a).h.calls[r].ret.Some?
    ensures s.frames[a.slot].rid != r
  {
    hide Inv, Next;
    assert IdentityOk(s, a.slot) by { Facts(s, a.slot); }
    DriverCalls(s, a.slot, r);
  }

  lemma AnsweringKept(s: State, a: Action, crashed: set<nat>)
    requires Inv(s) && Enabled(s, a) && PlacesTaken(s) && DeadIfBroken(s) && Answering(s, crashed)
    ensures Answering(Next(s, a), crashed + Crashes(s, a))
  {
    hide Inv, Next, Broken, AnswerOf;
    var s', t := Next(s, a), a.slot;
    NextKept(s, a);
    ActorReason(s, a);
    ActorStays(s, a);
    Facts(s, t);
    forall r: nat | r < |s'.h.calls| && s'.h.calls[r].ret.Some?
      ensures s'.h.calls[r].ret.value.answer == AnswerOf(s', r, r in crashed + Crashes(s, a))
      ensures s'.h.calls[r].ret.value.answer.Got? || (s'.mode == NoStd && Broken(s'))
    {
      ReturnedStays(s, a, crashed, r);
    }
    forall u: nat | u < |s'.frames| && !s'.frames[u].pc.Idle?
      ensures Reason(s'.frames[u].pc) == Some(Unwinding) <==> s'.frames[u].rid in crashed + Crashes(s, a)
    {
      if u != t {
        OtherSlots(s, a, u);
        if Unwinds(s, a) { Identity(s, t, u); }
      } else if a.Call? {
        CallFacts(s, t, a.task);
      }
    }
  }

  // ---------- the theorems ----------

  /** The requests whose thread has been unwound so far. */
  ghost function CrashedBy(states: seq<State>, actions: seq<Action>, k: nat): set<nat>
    requires IsRun(states, actions) && k < |states|
  {
    if k == 0 then {} else CrashedBy(states, actions, k - 1) + Crashes(states[k - 1], actions[k - 1])
  }

  lemma {:induction false} CrashedIs(states: seq<State>, actions: seq<Action>, k: nat, r: nat)
    requires IsRun(states, actions) && k < |states|
    ensures r in CrashedBy(states, actions, k) <==>
            exists j: nat :: j < k && Unwinds(states[j], actions[j]) && states[j].frames[actions[j].slot].rid == r
  {
    hide Next, Initial, Breaks;
    if k > 0 { CrashedIs(states, actions, k - 1, r); }
  }

  lemma InitialAnswering(s: State)
    requires Initial(s)
    ensures PlacesTaken(s) && DeadIfBroken(s) && Answering(s, {})
  {
  }

  lemma {:induction false} RunAnswering(states: seq<State>, actions: seq<Action>, k: nat)
    requires IsRun(states, actions) && k < |states|
    ensures PlacesTaken(states[k]) && DeadIfBroken(states[k]) && Answering(states[k], CrashedBy(states, actions, k))
  {
    hide Good, Next, Inv, PlacesTaken, DeadIfBroken, Answering, Crashes;
    if k == 0 {
      InitialAnswering(states[0]);
    } else {
      RunAnswering(states, actions, k - 1);
      RunGood(states, actions, k - 1);
      InvOf(states[k - 1]);
      PlacesTakenKept(states[k - 1], actions[k - 1]);
      DeadIfBrokenKept(states[k - 1], actions[k - 1]);
      AnsweringKept(states[k - 1], actions[k - 1], CrashedBy(states, actions, k - 1));
    }
  }

  /**
   * What `run` answers. It unwinds if and only if the thread of the request itself was executing a
   * queued closure that panicked, without `std`. Otherwise it delivers the outcome of its closure,
   * panic included, unless the closure never ran, or panicked in the queue without `std`: then, and
   * only then, it refuses.
   */
  lemma AnswersExactly(states: seq<State>, actions: seq<Action>, k: nat, r: nat)
    requires IsRun(states, actions) && k < |states| && r < |states[k].h.calls| && states[k].h.calls[r].ret.Some?
    ensures var answer := states[k].h.calls[r].ret.value.answer;
            var crashed := exists j: nat ::
              j < k && Unwinds(states[j], actions[j]) && states[j].frames[actions[j].slot].rid == r;
            && (answer.Crashed? <==> crashed)
            && (answer.Got? <==> !crashed && Delivered(states[k], r))
            && (answer.Got? ==> answer.out == states[k].h.log[states[k].h.calls[r].run.value].out)
            && (answer.Denied? <==> !crashed && !Delivered(states[k], r))
  {
    hide Next, Initial, Unwinds, Joined, PlacesTaken, DeadIfBroken;
    RunAnswering(states, actions, k);
    CrashedIs(states, actions, k, r);
  }

  /**
   * Only a queued closure that panics breaks a lock, and only without `std`: then the lock is dead, or
   * its thread is about to store POISONED. Until then every request that returns gets its outcome.
   */
  lemma BrokenExactly(states: seq<State>, actions: seq<Action>, k: nat)
    requires IsRun(states, actions) && k < |states|
    ensures var s := states[k];
            && (s.mode == NoStd && Broken(s) <==>
                s.raw.status == Dead || exists t: nat :: t < |s.frames| && GoingOff(s.frames[t].pc))
            && (s.mode == Std || !Broken(s) ==>
                  forall r: nat | r < |s.h.calls| && s.h.calls[r].ret.Some? :: s.h.calls[r].ret.value.answer.Got?)
  {
    hide Good, Next, Inv, Broken, PlacesTaken;
    var s := states[k];
    RunAnswering(states, actions, k);
    RunGood(states, actions, k);
    InvOf(s);
    Core(s);
    forall t: nat | t < |s.frames| && GoingOff(s.frames[t].pc) ensures s.mode == NoStd && Broken(s) {
      assert RoleOk(s, t) by { Facts(s, t); }
    }
  }

  // ---------- an uncontended call ----------

  /** `n` steps of slot `t`. */
  ghost function Solo(s: State, t: nat, n: nat): State
    requires t < |s.frames|
    decreases n
  {
    if n == 0 then s
    else
      var s' := Next(s, Step(t));
      if t < |s'.frames| then Solo(s', t, n - 1) else s'
  }

  /**
   * With a free lock and an empty queue, a call executes its closure itself: five steps later it has
   * returned the outcome, panic included and with or without `std`, and the lock is free again.
   */
  lemma Uncontended(s: State, t: nat, task: Task)
    requires t < |s.frames| && s.frames[t].pc.Idle? && s.raw == Raw(Unlocked, None)
    ensures t < |Next(s, Call(t, task)).frames|
    ensures var s' := Solo(Next(s, Call(t, task)), t, 5);
            && s'.raw == Raw(Unlocked, None) && Effect(s'.mem, task(s.mem).out) == task(s.mem)
            && |s'.h.calls| == |s.h.calls| + 1 && s'.h.line == s.h.line
            && s'.h.calls[|s.h.calls|].ret == Some(Ret(Got(task(s.mem).out), |s.h.log| + 1))
            && s'.frames == s.frames[t := s'.frames[t]] && s'.frames[t].pc.Idle?
  {
    hide Next, Solo;
    var s1 := DoCall(s, t, task);
    var s2, s3 := DoPeekTail(s1, t), DoFastLock(DoPeekTail(s1, t), t);
    var s4 := DoFastBegin(s3, t);
    var s5 := DoFastRun(s4, t, s.mem);
    var s6 := DoFastDrop(s5, t, task(s.mem).out);
    assert Next(s, Call(t, task)) == s1 by { CallIs(s, t, task); }
    FastStep(s1, t, s2, 5);
    FastStep(s2, t, s3, 4);
    FastStep(s3, t, s4, 3);
    FastStep(s4, t, s5, 2);
    FastStep(s5, t, s6, 1);
    SoloEnds(s6, t);
  }

  /** On a dead lock with an empty queue, a call is refused at once; its closure is dropped unused. */
  lemma RefusedAtOnce(s: State, t: nat, task: Task)
    requires t < |s.frames| && s.frames[t].pc.Idle? && s.raw == Raw(Dead, None) && s.mode == NoStd
    ensures t < |Next(s, Call(t, task)).frames|
    ensures var s' := Solo(Next(s, Call(t, task)), t, 2);
            && s'.raw == s.raw && s'.mem == s.mem && s'.h.log == s.h.log && s'.h.line == s.h.line
            && |s'.h.calls| == |s.h.calls| + 1
            && s'.h.calls[|s.h.calls|].ret == Some(Ret(Denied, |s.h.log|)) && s'.h.calls[|s.h.calls|].run.None?
            && s'.frames == s.frames[t := s'.frames[t]] && s'.frames[t].pc.Idle?
  {
    hide Next, Solo;
    var s1 := DoCall(s, t, task);
    var s2 := DoPeekTail(s1, t);
    assert Next(s, Call(t, task)) == s1 by { CallIs(s, t, task); }
    FastStep(s1, t, s2, 2);
    FastStep(s2, t, DoFastLock(s2, t), 1);
    SoloEnds(DoFastLock(s2, t), t);
  }

  lemma CallIs(s: State, t: nat, task: Task)
    requires t < |s.frames|
    ensures Next(s, Call(t, task)) == DoCall(s, t, task)
  {
  }

  lemma SoloEnds(s: State, t: nat)
    requires t < |s.frames|
    ensures Solo(s, t, 0) == s
  {
  }

  lemma FastStep(s: State, t: nat, s': State, n: nat)
    requires t < |s.frames| == |s'.frames| && n > 0
    requires match s.frames[t].pc
             case PeekTail => s' == DoPeekTail(s, t)
             case FastLock => s' == DoFastLock(s, t)
             case Fast(FastBegin) => s' == DoFastBegin(s, t)
             case Fast(FastRun(seen)) => s' == DoFastRun(s, t, seen)
             case Fast(FastDrop(out)) => s' == DoFastDrop(s, t, out)
             case _ => false
    ensures Solo(s, t, n) == Solo(s', t, n - 1)
  {
    hide DoPeekTail, DoFastLock, DoFastBegin, DoFastRun, DoFastDrop;
  }
}
