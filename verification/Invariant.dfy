/** The invariant of the lock: who owns it, where the queue stands, and which closures have run. */
module Invariant {
  import opened Wrappers
  import opened Tasks
  import opened Atomics
  import opened Machine

  /** The memory after the logged closures have run one after the other on `init`. */
  ghost function Replay(init: Memory, log: seq<Run>): Memory {
    if log == [] then init
    else log[|log| - 1].task(Replay(init, log[..|log| - 1])).mem
  }

  /** The outcome of the `k`th closure of such a sequential execution. */
  ghost function OutcomeAt(init: Memory, log: seq<Run>, k: nat): Outcome
    requires k < |log|
  {
    log[k].task(Replay(init, log[..k])).out
  }

  // ---------- what a program counter means ----------

  /** The request's node has been swapped into the tail and still exists. */
  ghost predicate InLine(f: Frame) {
    !(f.pc.Idle? || f.pc.PeekTail? || f.pc.FastLock? || f.pc.Fast? || f.pc.Enqueue?)
  }

  /** The node the thread is looking after: it will be the one to wake it for good. */
  ghost function Cursor(pc: PC): Option<nat> {
    if pc.Combine? || pc.Bow? || pc.Last? || pc.Bomb? then Some(pc.cursor) else None
  }

  /** The node that becomes the cursor, or the next combiner, when the step is done. */
  ghost function Heir(pc: PC): Option<nat> {
    match pc
    case Combine(_, Advance(n)) => Some(n)
    case Combine(_, Promote(n)) => Some(n)
    case Bomb(_, BombAdvance(n), _) => Some(n)
    case _ => None
  }

  /** The chain has been closed and the lock is still to be released. */
  ghost predicate Closing(pc: PC) {
    pc.Unlock? || ((pc.Last? || pc.LastWake?) && pc.end.Release?)
  }

  /** The thread's cursor is the last place reached in the open chain. */
  ghost predicate Drives(pc: PC) {
    pc.Combine? || pc.Bomb?
  }

  /** The cursor is still to be executed. */
  ghost predicate Ready(pc: PC) {
    pc.Combine? && (pc.op.WakePrev? || pc.op.Begin?)
  }

  /** The closure of the cursor is running. */
  ghost predicate Executing(pc: PC) {
    pc.Combine? && pc.op.Execute?
  }

  /** The cursor's closure has run and its result is stored. */
  ghost predicate Executed(pc: PC) {
    || (pc.Combine? && !Ready(pc) && !Executing(pc))
    || pc.Bow?
    || (pc.Last? && !pc.end.Finish?)
  }

  /** The thread holds the lock. A waiter that has been sent HEAD holds it before it knows. */
  ghost predicate Owns(f: Frame) {
    || f.pc.Fast? || f.pc.Combine? || Closing(f.pc)
    || (f.pc.Bomb? && f.pc.bomb.Poison? && f.pc.why == Unwinding)
    || (f.pc.Wait? && f.word == Head)
  }

  /** The reason a bomb has for going off, if the thread is one. */
  ghost function Reason(pc: PC): Option<Why> {
    if pc.Bomb? then Some(pc.why)
    else if (pc.Last? || pc.LastWake?) && pc.end.Finish? then Some(pc.end.why)
    else if pc == Return(Unwound) then Some(Unwinding)
    else None
  }

  ghost predicate Unsettled(m: Mark) { !m.Settled? }

  ghost predicate Unreached(m: Mark) { m.Fresh? || m.Queued? }

  // ---------- global part ----------

  ghost predicate GlobalOk(s: State) {
    && |s.h.marks| == |s.h.line|
    && s.h.start <= s.h.front <= |s.h.line|
    && s.h.done <= s.h.front
    && s.raw.tail == (if s.h.start == |s.h.line| then None else Some(s.h.line[|s.h.line| - 1].slot))
    && (s.raw.status == Locked <==> s.h.owner.Some?)
    && (s.h.owner.Some? ==> s.h.owner.value < |s.frames| && Owns(s.frames[s.h.owner.value]))
    && (s.mode == Std ==> s.raw.status != Dead)
    && (s.raw.status == Unlocked ==> s.h.front == s.h.start)
    && (s.raw.status != Dead ==> s.h.done == Reached(s))
    && (s.h.start < s.h.front ==> Led(s))
    && s.mem == Replay(s.h.init, s.h.log)
  }

  /** Somebody walks the open chain, or has been sent HEAD to do so. */
  ghost predicate Led(s: State)
    requires |s.h.marks| == |s.h.line| && s.h.start < s.h.front <= |s.h.line|
  {
    var m := s.h.marks[s.h.front - 1];
    || (m.Held? && m.keeper < |s.frames| && Drives(s.frames[m.keeper].pc))
    || (s.h.front < |s.h.line| && s.h.owner == Some(s.h.line[s.h.front].slot))
  }

  /** The number of executed places while the lock is not poisoned. */
  ghost function Reached(s: State): int {
    if s.h.owner.Some? && s.h.owner.value < |s.frames|
       && (Ready(s.frames[s.h.owner.value].pc) || Executing(s.frames[s.h.owner.value].pc)) then s.h.front - 1
    else s.h.front
  }

  // ---------- per place of the queue ----------

  ghost predicate PlaceOk(s: State, i: nat)
    requires |s.h.marks| == |s.h.line| && i < |s.h.line|
  {
    var e := s.h.line[i];
    && e.slot < |s.frames|
    && e.rid < |s.h.calls|
    && (i >= s.h.start ==> (e.head <==> i == s.h.start))
    && (Unreached(s.h.marks[i]) <==> i >= s.h.front)
    && (i < s.h.done <==> s.h.calls[e.rid].run.Some?)
    && (Unsettled(s.h.marks[i]) ==>
          var f := s.frames[e.slot];
          && InLine(f) && f.pos == i && f.rid == e.rid
          && f.next == Successor(s, i))
    && (s.h.marks[i].Fresh? ==>
          && s.frames[e.slot].pc.Link?
          && s.h.start < i && Unsettled(s.h.marks[i - 1]))
    && (s.h.marks[i].Settled? ==> MessageOk(s, s.h.calls[e.rid].run, s.h.marks[i].message))
    && (s.h.marks[i].Held? ==>
          && s.h.marks[i].keeper < |s.frames|
          && Cursor(s.frames[s.h.marks[i].keeper].pc) == Some(e.slot))
  }

  /**
   * The last message a node gets: DONE if its closure ran and its result is stored, and POISONED,
   * only without `std`, if its closure never ran or panicked.
   */
  ghost predicate MessageOk(s: State, run: Option<nat>, message: Word) {
    && (run.Some? ==> run.value < |s.h.log|)
    && if run.Some? && (s.mode == Std || !s.h.log[run.value].out.Panicked?) then message == Done
       else message == Poisoned && s.mode == NoStd
  }

  /** The link that the node at place `i` holds. */
  ghost function Successor(s: State, i: nat): Option<nat>
    requires |s.h.marks| == |s.h.line| && i < |s.h.line|
  {
    if i + 1 < |s.h.line| && !s.h.line[i + 1].head && !s.h.marks[i + 1].Fresh? then Some(s.h.line[i + 1].slot) else None
  }

  // ---------- per slot ----------

  ghost predicate SlotOk(s: State, t: nat)
    requires |s.h.marks| == |s.h.line| && t < |s.frames|
  {
    IdentityOk(s, t) && RoleOk(s, t) && (InLine(s.frames[t]) ==> WordOk(s, t)) && ClosureOk(s, t)
  }

  ghost predicate IdentityOk(s: State, t: nat)
    requires t < |s.frames|
  {
    var f := s.frames[t];
    && (!f.pc.Idle? ==>
          && f.rid < |s.h.calls|
          && s.h.calls[f.rid].slot == t
          && s.h.calls[f.rid].ret.None?
          && s.h.calls[f.rid].task == f.task)
    && (InLine(f) ==> f.pos < |s.h.line| && s.h.line[f.pos].slot == t && s.h.line[f.pos].rid == f.rid)
  }

  ghost predicate RoleOk(s: State, t: nat)
    requires |s.h.marks| == |s.h.line| && t < |s.frames|
  {
    var f := s.frames[t];
    && (Owns(f) ==> s.h.owner == Some(t))
    && (Cursor(f.pc).Some? ==> CursorOk(s, t, Cursor(f.pc).value))
    && (Heir(f.pc).Some? ==> HeirOk(s, Heir(f.pc).value))
    && ((f.pc.Combine? && f.pc.op.HandOff?) || (f.pc.Bomb? && f.pc.bomb.BombSpin?) ==> s.h.front < |s.h.line|)
    && (Closing(f.pc) || f.pc.Fast? ==> s.h.front == s.h.start)
    && (Reason(f.pc).Some? ==>
          && s.mode == NoStd
          && (s.raw.status == Dead || Owns(f))
          && (Reason(f.pc).value == Unwinding ==> f.rid < |s.h.calls| && s.h.calls[f.rid].run.Some?))
  }

  ghost predicate CursorOk(s: State, t: nat, c: nat)
    requires |s.h.marks| == |s.h.line| && t < |s.frames|
  {
    var pc := s.frames[t].pc;
    && c < |s.frames| && InLine(s.frames[c])
    && s.frames[c].pos < |s.h.marks| && s.h.marks[s.frames[c].pos] == Held(t)
    && (Drives(pc) ==> s.h.start < s.h.front && s.frames[c].pos == s.h.front - 1)
    && (Executed(pc) ==> s.frames[c].result.Some?)
    && (Ready(pc) ==> s.frames[c].full)
    && (Executing(pc) ==> !s.frames[c].full && pc.op.seen == s.mem)
    && (Reason(pc).Some? ==> s.frames[c].result.None?)
  }

  /** The first place that nobody has reached is linked. */
  ghost predicate HeirOk(s: State, n: nat)
    requires |s.h.marks| == |s.h.line|
  {
    s.h.front < |s.h.line| && s.h.line[s.h.front].slot == n && s.h.marks[s.h.front].Queued?
  }

  ghost predicate WordOk(s: State, t: nat)
    requires |s.h.marks| == |s.h.line| && t < |s.frames|
  {
    var f := s.frames[t];
    f.pos < |s.h.line| &&
    var m := s.h.marks[f.pos];
    && (f.word == Done ==> f.result.Some?)
    && (f.word == Poisoned ==> s.mode == NoStd && s.raw.status == Dead && f.result.None?)
    && (f.pc.Link? <==> m.Fresh?)
    && match f.pc
       case Link(prev) => f.word == Waiting && 1 <= f.pos && prev == s.h.line[f.pos - 1].slot
       case Wait(op) =>
         && !s.h.line[f.pos].head
         && m != Held(t)
         && (f.word == Done || f.word == Poisoned <==> m == Settled(f.word))
         && (m.Settled? ==> m == Settled(f.word))
         && (f.word == Head ==> m.Queued? && f.pos == s.h.front && s.h.start < s.h.front)
         && (op.Spin? || op.Park? ==> f.word != Sleeping)
         && (!(op.Spin? || op.Park?) ==> f.word != Waiting)
         && (op.Reload? ==> f.word != Sleeping)
       case Acquire(_) =>
         m.Queued? && f.word == Waiting && s.h.line[f.pos].head && s.h.front == s.h.start == f.pos
       case Return(v) =>
         && m.Settled?
         && (v == Finished ==> f.word == Done)
         && (v == Cancelled ==> f.word == Poisoned)
         && (v == Unwound ==> f.word == Done || f.word == Poisoned)
       case _ =>
         && (m == Held(t) || m.Settled?)
         && (m == Held(t) ==> f.word == Waiting || f.word == Head)
         && (m.Settled? ==> f.word == Done || f.word == Poisoned)
         && (m.Settled? && f.word == Poisoned ==> Reason(f.pc).Some?)
         && (m.Settled? && Reason(f.pc) == Some(Turned) ==> f.word == Poisoned)
         && (f.pc.Unlock? || f.pc.LastWake? ==> m.Settled?)
  }

  ghost predicate ClosureOk(s: State, t: nat)
    requires |s.h.marks| == |s.h.line| && t < |s.frames|
  {
    var f := s.frames[t];
    !f.pc.Idle? && f.rid < |s.h.calls| ==>
      var c := s.h.calls[f.rid];
      if InLine(f) then
        && (f.full ==> c.uses == 0)
        && (!f.full ==> c.uses == 1)
        && (f.started <==> s.mode == NoStd && !f.full)
        && (c.run.Some? ==> !f.full && c.run.value < |s.h.log|)
        && (c.run.None? && !f.full ==>
              && f.pos < |s.h.marks| && s.h.marks[f.pos].Held?
              && s.h.marks[f.pos].keeper < |s.frames|
              && Executing(s.frames[s.h.marks[f.pos].keeper].pc))
        && (f.result.Some? ==> c.run.Some? && f.result.value == s.h.log[c.run.value].out)
        && (f.result.Some? && s.mode == NoStd ==> !f.result.value.Panicked?)
        && (c.run.Some? && f.result.None? ==> s.mode == NoStd && s.h.log[c.run.value].out.Panicked?)
      else if f.pc.Fast? && f.pc.fast.FastDrop? then
        c.uses == 1 && c.run.Some? && c.run.value < |s.h.log| && s.h.log[c.run.value].out == f.pc.fast.out
      else
        && c.run.None?
        && c.uses == (if f.pc.Fast? && f.pc.fast.FastRun? then 1 else 0)
        && (f.pc.Fast? && f.pc.fast.FastRun? ==> f.pc.fast.seen == s.mem)
        && (f.pc.Enqueue? ==> f.word == Waiting && f.next.None? && f.full && !f.started && f.result.None?)
  }

  // ---------- per request and per log entry ----------

  ghost predicate RequestOk(s: State, r: nat)
    requires r < |s.h.calls|
  {
    var c := s.h.calls[r];
    && c.born <= |s.h.log|
    && (c.run.Some? ==> c.born <= c.run.value < |s.h.log| && s.h.log[c.run.value].rid == r)
    && (c.ret.None? ==> c.slot < |s.frames| && !s.frames[c.slot].pc.Idle? && s.frames[c.slot].rid == r)
    && (c.ret.Some? ==> AnswerOk(s, c))
  }

  /** A request that has returned used its closure once, and got what the log says. */
  ghost predicate AnswerOk(s: State, c: Request) {
    && c.uses == 1
    && c.ret.Some? && c.ret.value.at <= |s.h.log|
    && (c.run.Some? ==> c.run.value < c.ret.value.at)
    && match c.ret.value.answer
       case Got(out) => c.run.Some? && out == s.h.log[c.run.value].out
       case Denied => s.mode == NoStd && (c.run.Some? ==> s.h.log[c.run.value].out.Panicked?)
       case Crashed => s.mode == NoStd && c.run.Some?
       case Garbage => false
  }

  ghost predicate LogOk(s: State, k: nat)
    requires k < |s.h.log|
  {
    && s.h.log[k].rid < |s.h.calls|
    && s.h.calls[s.h.log[k].rid].run == Some(k)
    && s.h.calls[s.h.log[k].rid].task == s.h.log[k].task
    && s.h.log[k].out == OutcomeAt(s.h.init, s.h.log, k)
  }

  ghost predicate Inv(s: State) {
    && GlobalOk(s)
    && (forall i: nat | i < |s.h.line| :: PlaceOk(s, i))
    && (forall t: nat | t < |s.frames| :: SlotOk(s, t))
    && (forall r: nat | r < |s.h.calls| :: RequestOk(s, r))
    && (forall k: nat | k < |s.h.log| :: LogOk(s, k))
  }

  lemma InitialOk(s: State)
    requires Initial(s)
    ensures Inv(s)
  {
  }
}
