/**
 * The steps that change who owns the lock, the queue or the protected memory keep the invariant:
 * the fast path, joining the queue, linking to the predecessor, becoming the combiner, and the
 * release. Each step has one lemma for the slots, one for the places of the queue, and one that
 * puts them together.
 */
module OwnerSteps {
  import opened Wrappers
  import opened Tasks
  import opened Atomics
  import opened Machine
  import opened Invariant
  import opened Frames
  import opened Steps

  /** A thread that the step does not touch, while the acting thread is alone with the lock. */
  lemma OthersOk(s: State, s': State, t: nat, u: nat)
    requires Inv(s) && t < |s.frames| && u < |s.frames| && u != t
    requires s.h.owner == Some(t) || s.raw.status == Unlocked || Drives(s.frames[t].pc)
    requires |s.h.marks| == |s.h.line| && Untouched(s, s', u)
    requires s.frames[u].pc.Acquire? ==> s'.h.front == s.h.front && s'.h.start == s.h.start
    ensures SlotOk(s', u)
  {
    hide Inv;
    Alone(s, t, u);
    Facts(s, u);
    BystanderOk(s, s', u);
  }

  lemma Identity(s: State, t: nat, u: nat)
    requires Inv(s) && t < |s.frames| && u < |s.frames| && u != t
    requires !s.frames[t].pc.Idle? && !s.frames[u].pc.Idle?
    ensures s.frames[t].rid != s.frames[u].rid
  {
    assert SlotOk(s, t) && SlotOk(s, u);
  }

  /** Requests and log entries, when at most the request `rid` changes and the log does not. */
  lemma RecordsOk(s: State, s': State, rid: nat)
    requires Inv(s) && Grows(s, s') && s'.h.log == s.h.log && |s'.h.calls| == |s.h.calls|
    requires forall r: nat | r < |s.h.calls| && r != rid :: s'.h.calls[r] == s.h.calls[r]
    requires forall r: nat | r < |s.h.calls| ::
             s'.h.calls[r].run == s.h.calls[r].run && s'.h.calls[r].task == s.h.calls[r].task
    requires forall u: nat | u < |s.frames| :: s'.frames[u].rid == s.frames[u].rid
    requires forall u: nat | u < |s.frames| && s'.frames[u].pc.Idle? :: s.frames[u].pc.Idle? || s.frames[u].rid == rid
    requires rid < |s.h.calls| ==> RequestOk(s', rid)
    ensures forall r: nat | r < |s'.h.calls| :: RequestOk(s', r)
    ensures forall k: nat | k < |s'.h.log| :: LogOk(s', k)
  {
    forall r: nat | r < |s'.h.calls| ensures RequestOk(s', r) {
      assert RequestOk(s, r);
      if r != rid { RequestCalmOk(s, s', r); }
    }
    forall k: nat | k < |s'.h.log| ensures LogOk(s', k) {
      assert LogOk(s, k);
      LogCalmOk(s, s', k);
    }
  }

  /** The queue and its nodes stay as they are; slot `t` looks after none of them. */
  ghost predicate QueueKept(s: State, s': State, t: nat)
    requires t < |s.frames|
  {
    && Grows(s, s') && Cursor(s.frames[t].pc).None? && Cursor(s'.frames[t].pc).None?
    && s'.h.line == s.h.line && s'.h.marks == s.h.marks
    && s'.h.start == s.h.start && s'.h.front == s.h.front && s'.h.done == s.h.done
    && (forall r: nat | r < |s.h.calls| && r != s.frames[t].rid :: s'.h.calls[r] == s.h.calls[r])
    && (forall u: nat | u < |s.frames| && u != t :: s'.frames[u] == s.frames[u])
    && (InLine(s.frames[t]) ==>
          InLine(s'.frames[t]) && s'.frames[t] == s.frames[t].(pc := s'.frames[t].pc) && !s.frames[t].pc.Link?)
    && (s.frames[t].rid < |s.h.calls| ==>
          || s'.h.calls[s.frames[t].rid].run == s.h.calls[s.frames[t].rid].run
          || (s.h.calls[s.frames[t].rid].run.None? && s.h.done == s.h.front && !InLine(s.frames[t])
             && !s.frames[t].pc.Idle?))
  }

  lemma PlaceKept(s: State, s': State, t: nat, i: nat)
    requires Inv(s) && t < |s.frames| && QueueKept(s, s', t) && i < |s.h.line|
    ensures PlaceOk(s', i)
  {
    hide Inv, SlotOk;
    Spot(s, i);
    Core(s);
    if Unsettled(s.h.marks[i]) && !s.frames[t].pc.Idle? && s.h.line[i].slot != t { Identity(s, t, s.h.line[i].slot); }
    PlaceCalmOk(s, s', i);
  }

  lemma PlacesKeptOk(s: State, s': State, t: nat)
    requires Inv(s) && t < |s.frames| && QueueKept(s, s', t)
    ensures forall i: nat | i < |s'.h.line| :: PlaceOk(s', i)
  {
    hide Inv, PlaceOk;
    Core(s);
    forall i: nat | i < |s'.h.line| ensures PlaceOk(s', i) { PlaceKept(s, s', t, i); }
  }

  lemma Assemble(s: State)
    requires GlobalOk(s)
    requires forall i: nat | i < |s.h.line| :: PlaceOk(s, i)
    requires forall t: nat | t < |s.frames| :: SlotOk(s, t)
    requires forall r: nat | r < |s.h.calls| :: RequestOk(s, r)
    requires forall k: nat | k < |s.h.log| :: LogOk(s, k)
    ensures Inv(s)
  {
  }

  // ---------- the fast path ----------

  lemma FastLockSlots(s: State, t: nat, u: nat)
    requires Inv(s) && t < |s.frames| && s.frames[t].pc.FastLock? && s.raw.status == Unlocked && u < |s.frames|
    ensures SlotOk(DoFastLock(s, t), u)
  {
    Facts(s, u);
    assert GlobalOk(s);
    if u != t { hide Inv; OthersOk(s, DoFastLock(s, t), t, u); }
  }

  lemma FastLockOk(s: State, t: nat)
    requires Inv(s) && t < |s.frames| && s.frames[t].pc.FastLock? && s.raw.status == Unlocked
    ensures Inv(DoFastLock(s, t))
  {
    hide Inv;
    var s' := DoFastLock(s, t);
    Facts(s, t);
    Core(s);
    assert GlobalOk(s');
    PlacesKeptOk(s, s', t);
    forall u: nat | u < |s.frames| ensures SlotOk(s', u) { FastLockSlots(s, t, u); }
    RecordsOk(s, s', s.frames[t].rid);
    Assemble(s');
  }

  /** Running one more closure extends the sequential execution. */
  lemma Append(init: Memory, log: seq<Run>, run: Run)
    ensures Replay(init, log + [run]) == run.task(Replay(init, log)).mem
    ensures OutcomeAt(init, log + [run], |log|) == run.task(Replay(init, log)).out
  {
    assert (log + [run])[..|log|] == log;
  }

  /** Requests and log entries, when the closure of request `rid` has ended. */
  lemma LoggedOk(s: State, s': State, rid: nat, task: Task)
    requires Inv(s) && Grows(s, s') && rid < |s.h.calls| && |s'.h.calls| == |s.h.calls|
    requires s.h.calls[rid].run.None? && s.h.calls[rid].ret.None? && s.h.calls[rid].task == task
    requires s'.h.log == s.h.log + [Run(rid, task, task(s.mem).out)] && s'.mem == task(s.mem).mem
    requires s'.h.calls == s.h.calls[rid := s.h.calls[rid].(run := Some(|s.h.log|))]
    requires forall u: nat | u < |s.frames| :: s'.frames[u].rid == s.frames[u].rid
    requires forall u: nat | u < |s.frames| && s'.frames[u].pc.Idle? :: s.frames[u].pc.Idle?
    ensures s'.mem == Replay(s'.h.init, s'.h.log)
    ensures forall r: nat | r < |s'.h.calls| :: RequestOk(s', r)
    ensures forall k: nat | k < |s'.h.log| :: LogOk(s', k)
  {
    Append(s.h.init, s.h.log, Run(rid, task, task(s.mem).out));
    forall r: nat | r < |s'.h.calls| ensures RequestOk(s', r) {
      assert RequestOk(s, r);
      if r != rid { RequestCalmOk(s, s', r); }
    }
    forall k: nat | k < |s'.h.log| ensures LogOk(s', k) {
      if k < |s.h.log| { assert LogOk(s, k); LogCalmOk(s, s', k); }
    }
  }

  lemma FastRunSlots(s: State, t: nat, seen: Memory, u: nat)
    requires Inv(s) && t < |s.frames| && s.frames[t].pc == Fast(FastRun(seen)) && u < |s.frames|
    ensures SlotOk(DoFastRun(s, t, seen), u)
  {
    Facts(s, u);
    Facts(s, t);
    if u != t { hide Inv; OthersOk(s, DoFastRun(s, t, seen), t, u); }
  }

  lemma FastRunOk(s: State, t: nat, seen: Memory)
    requires Inv(s) && t < |s.frames| && s.frames[t].pc == Fast(FastRun(seen))
    ensures Inv(DoFastRun(s, t, seen))
  {
    hide Inv;
    var s' := DoFastRun(s, t, seen);
    Facts(s, t);
    Core(s);
    PlacesKeptOk(s, s', t);
    LoggedOk(s, s', s.frames[t].rid, s.frames[t].task);
    forall u: nat | u < |s.frames| ensures SlotOk(s', u) { FastRunSlots(s, t, seen, u); }
    Assemble(s');
  }

  lemma FastDropSlots(s: State, t: nat, out: Outcome, u: nat)
    requires Inv(s) && t < |s.frames| && s.frames[t].pc == Fast(FastDrop(out)) && u < |s.frames|
    ensures SlotOk(DoFastDrop(s, t, out), u)
  {
    Facts(s, u);
    Facts(s, t);
    assert GlobalOk(s);
    if u != t { hide Inv; OthersOk(s, DoFastDrop(s, t, out), t, u); }
  }

  lemma FastDropOk(s: State, t: nat, out: Outcome)
    requires Inv(s) && t < |s.frames| && s.frames[t].pc == Fast(FastDrop(out))
    ensures Inv(DoFastDrop(s, t, out))
  {
    hide Inv;
    var s' := DoFastDrop(s, t, out);
    Facts(s, t);
    Core(s);
    PlacesKeptOk(s, s', t);
    RecordsOk(s, s', s.frames[t].rid);
    forall u: nat | u < |s.frames| ensures SlotOk(s', u) { FastDropSlots(s, t, out, u); }
    Assemble(s');
  }

  lemma UnlockSlots(s: State, t: nat, u: nat)
    requires Inv(s) && t < |s.frames| && s.frames[t].pc.Unlock? && u < |s.frames|
    ensures SlotOk(DoUnlock(s, t), u)
  {
    Facts(s, u);
    Facts(s, t);
    assert GlobalOk(s);
    if u != t { hide Inv; OthersOk(s, DoUnlock(s, t), t, u); }
  }

  lemma UnlockOk(s: State, t: nat)
    requires Inv(s) && t < |s.frames| && s.frames[t].pc.Unlock?
    ensures Inv(DoUnlock(s, t))
  {
    hide Inv;
    var s' := DoUnlock(s, t);
    Facts(s, t);
    Core(s);
    PlacesKeptOk(s, s', t);
    RecordsOk(s, s', s.frames[t].rid);
    forall u: nat | u < |s.frames| ensures SlotOk(s', u) { UnlockSlots(s, t, u); }
    Assemble(s');
  }

  // ---------- joining the queue ----------

  /** The last node of the open chain still exists: nobody wakes it before the chain is closed. */
  lemma TailAlive(s: State)
    requires Inv(s) && s.h.start < |s.h.line|
    ensures |s.h.marks| == |s.h.line| && Unsettled(s.h.marks[|s.h.line| - 1])
    ensures var tail := s.h.line[|s.h.line| - 1].slot;
            s.raw.tail == Some(tail) && tail < |s.frames| && InLine(s.frames[tail])
            && s.frames[tail].pos == |s.h.line| - 1
  {
    assert PlaceOk(s, |s.h.line| - 1);
    if s.h.owner.Some? { assert SlotOk(s, s.h.owner.value); }
  }

  lemma EnqueueOthers(s: State, t: nat, u: nat)
    requires Inv(s) && t < |s.frames| && s.frames[t].pc.Enqueue? && u != t && u < |s.frames|
    ensures SlotOk(DoEnqueue(s, t), u)
  {
    hide Inv;
    Facts(s, u);
    assert IdentityOk(s, t) by { Facts(s, t); }
    Core(s);
    CalmOk(s, DoEnqueue(s, t), u);
  }

  lemma EnqueueSelf(s: State, t: nat)
    requires Inv(s) && t < |s.frames| && s.frames[t].pc.Enqueue?
    ensures SlotOk(DoEnqueue(s, t), t)
  {
    hide Inv;
    Facts(s, t);
    Core(s);
  }

  lemma EnqueuePlaces(s: State, t: nat, i: nat)
    requires Inv(s) && t < |s.frames| && s.frames[t].pc.Enqueue? && i <= |s.h.line|
    ensures PlaceOk(DoEnqueue(s, t), i)
  {
    hide Inv;
    var s' := DoEnqueue(s, t);
    Facts(s, t);
    Core(s);
    if i < |s.h.line| {
      Spot(s, i);
      PlaceCalmOk(s, s', i);
    } else if s.h.start < |s.h.line| {
      TailAlive(s);
    }
  }

  lemma EnqueueOk(s: State, t: nat)
    requires Inv(s) && t < |s.frames| && s.frames[t].pc.Enqueue?
    ensures Inv(DoEnqueue(s, t))
  {
    hide Inv;
    var s' := DoEnqueue(s, t);
    Facts(s, t);
    Core(s);
    RecordsOk(s, s', s.frames[t].rid);
    forall u: nat | u < |s.frames| ensures SlotOk(s', u) {
      if u == t { EnqueueSelf(s, t); } else { EnqueueOthers(s, t, u); }
    }
    forall i: nat | i < |s'.h.line| ensures PlaceOk(s', i) { EnqueuePlaces(s, t, i); }
    Assemble(s');
  }

  /** The predecessor is still there when its link is stored. */
  lemma PredecessorAlive(s: State, t: nat, prev: nat)
    requires Inv(s) && t < |s.frames| && s.frames[t].pc == Link(prev)
    ensures |s.h.marks| == |s.h.line| && 1 <= s.frames[t].pos < |s.h.line|
    ensures prev < |s.frames| && prev != t && InLine(s.frames[prev]) && s.frames[prev].pos == s.frames[t].pos - 1
    ensures s.h.line[s.frames[t].pos - 1].slot == prev && Unsettled(s.h.marks[s.frames[t].pos - 1])
  {
    assert SlotOk(s, t);
    assert PlaceOk(s, s.frames[t].pos) && PlaceOk(s, s.frames[t].pos - 1);
  }

  lemma LinkOthers(s: State, t: nat, prev: nat, u: nat)
    requires Inv(s) && t < |s.frames| && s.frames[t].pc == Link(prev) && u < |s.frames| && u != t && prev < |s.frames|
    ensures SlotOk(DoLink(s, t, prev), u)
  {
    hide Inv;
    PredecessorAlive(s, t, prev);
    Facts(s, u);
    assert IdentityOk(s, t) && WordOk(s, t) by { Facts(s, t); }
    Core(s);
    CalmOk(s, DoLink(s, t, prev), u);
  }

  lemma LinkSelf(s: State, t: nat, prev: nat)
    requires Inv(s) && t < |s.frames| && s.frames[t].pc == Link(prev) && prev < |s.frames|
    ensures SlotOk(DoLink(s, t, prev), t)
  {
    hide Inv;
    PredecessorAlive(s, t, prev);
    Facts(s, t);
    Spot(s, s.frames[t].pos);
  }

  lemma LinkPlaces(s: State, t: nat, prev: nat, i: nat)
    requires Inv(s) && t < |s.frames| && s.frames[t].pc == Link(prev) && i < |s.h.line| && prev < |s.frames|
    ensures PlaceOk(DoLink(s, t, prev), i)
  {
    hide Inv;
    PredecessorAlive(s, t, prev);
    Facts(s, t);
    Spot(s, i);
    Spot(s, s.frames[t].pos);
    if i != s.frames[t].pos && i + 1 != s.frames[t].pos { PlaceCalmOk(s, DoLink(s, t, prev), i); }
  }

  lemma LinkGlobal(s: State, t: nat, prev: nat)
    requires Inv(s) && t < |s.frames| && s.frames[t].pc == Link(prev) && prev < |s.frames|
    ensures GlobalOk(DoLink(s, t, prev))
  {
    hide Inv;
    assert WordOk(s, t) && IdentityOk(s, t) by { Facts(s, t); }
    Core(s);
    Spot(s, s.frames[t].pos);
  }

  lemma LinkOk(s: State, t: nat, prev: nat)
    requires Inv(s) && t < |s.frames| && s.frames[t].pc == Link(prev)
    ensures prev < |s.frames| && Inv(DoLink(s, t, prev))
  {
    hide Inv, SlotOk, PlaceOk, GlobalOk;
    PredecessorAlive(s, t, prev);
    var s' := DoLink(s, t, prev);
    LinkGlobal(s, t, prev);
    Facts(s, t);
    RecordsOk(s, s', s.frames[t].rid);
    forall u: nat | u < |s.frames| ensures SlotOk(s', u) {
      if u == t { LinkSelf(s, t, prev); } else { LinkOthers(s, t, prev, u); }
    }
    forall i: nat | i < |s'.h.line| ensures PlaceOk(s', i) { LinkPlaces(s, t, prev, i); }
    Assemble(s');
  }

  // ---------- becoming the combiner ----------

  /** A request takes its own node, at the first place nobody has reached, as its cursor. */
  ghost predicate Takes(s: State, s': State, t: nat)
    requires t < |s.frames|
  {
    && Grows(s, s')
    && s.h.front < |s.h.line| == |s.h.marks| && s.h.line[s.h.front].slot == t
    && s'.frames == s.frames[t := s.frames[t].(pc := s'.frames[t].pc)]
    && Drives(s'.frames[t].pc) && Cursor(s'.frames[t].pc) == Some(t)
    && s'.h == Take(s.h, t).(owner := s'.h.owner)
    && s'.mem == s.mem && s'.raw.tail == s.raw.tail
    && (s.frames[t].pc.Wait? || s.frames[t].pc.Acquire?)
  }

  lemma TakePlaces(s: State, s': State, t: nat, i: nat)
    requires Inv(s) && t < |s.frames| && i < |s.h.line| && Takes(s, s', t)
    ensures PlaceOk(s', i)
  {
    hide Inv;
    Spot(s, i);
    Spot(s, s.h.front);
    Core(s);
    if i != s.h.front { PlaceCalmOk(s, s', i); }
  }

  lemma TakeOthers(s: State, s': State, t: nat, u: nat)
    requires Inv(s) && t < |s.frames| && u < |s.frames| && u != t && Takes(s, s', t)
    requires !s.frames[u].pc.Acquire? && Bystander(s.frames[u])
    ensures SlotOk(s', u)
  {
    hide Inv;
    Facts(s, u);
    Spot(s, s.h.front);
    BystanderOk(s, s', u);
  }

  /** A waiter that has been sent HEAD sits at the first place nobody has reached. */
  lemma HeadFacts(s: State, t: nat)
    requires Inv(s) && t < |s.frames| && s.frames[t].pc.Wait? && s.frames[t].word == Head
    ensures Takes(s, Observe(s, t, Head), t) && s.h.owner == Some(t) && s.h.start < s.h.front
    ensures s.frames[t].full && s.frames[t].rid < |s.h.calls| && s.h.calls[s.frames[t].rid].run.None?
  {
    assert SlotOk(s, t) && PlaceOk(s, s.frames[t].pos);
  }

  lemma HeadSlots(s: State, t: nat, u: nat)
    requires Inv(s) && t < |s.frames| && s.frames[t].pc.Wait? && s.frames[t].word == Head && u < |s.frames|
    ensures SlotOk(Observe(s, t, Head), u)
  {
    HeadFacts(s, t);
    Facts(s, u);
    if u != t {
      Alone(s, t, u);
      TakeOthers(s, Observe(s, t, Head), t, u);
    }
  }

  lemma HeadOk(s: State, t: nat)
    requires Inv(s) && t < |s.frames| && s.frames[t].pc.Wait? && s.frames[t].word == Head
    ensures Inv(Observe(s, t, Head))
  {
    hide Inv;
    var s' := Observe(s, t, Head);
    HeadFacts(s, t);
    Facts(s, t);
    Core(s);
    RecordsOk(s, s', s.frames[t].rid);
    forall u: nat | u < |s.frames| ensures SlotOk(s', u) { HeadSlots(s, t, u); }
    forall i: nat | i < |s'.h.line| ensures PlaceOk(s', i) { TakePlaces(s, s', t, i); }
    Assemble(s');
  }

  /** A request that races for the lock is the head of the open chain, and the only one. */
  lemma RacerFacts(s: State, t: nat)
    requires Inv(s) && t < |s.frames| && s.frames[t].pc.Acquire?
    ensures |s.h.marks| == |s.h.line| && s.h.front == s.h.start < |s.h.line| && s.h.line[s.h.front].slot == t
    ensures s.frames[t].full && s.frames[t].result.None?
    ensures s.frames[t].rid < |s.h.calls| && s.h.calls[s.frames[t].rid].run.None?
    ensures forall u: nat | u < |s.frames| && u != t :: !s.frames[u].pc.Acquire? && !Drives(s.frames[u].pc)
  {
    assert SlotOk(s, t) && PlaceOk(s, s.frames[t].pos);
    forall u: nat | u < |s.frames| && u != t ensures !s.frames[u].pc.Acquire? && !Drives(s.frames[u].pc) {
      assert SlotOk(s, u);
    }
  }

  lemma AcquireSlots(s: State, t: nat, u: nat)
    requires Inv(s) && t < |s.frames| && s.frames[t].pc == Acquire(false) && u < |s.frames|
    requires s.raw.status == Unlocked || (s.raw.status == Dead && s.mode == NoStd)
    ensures SlotOk(DoAcquire(s, t, false), u)
  {
    hide Inv;
    RacerFacts(s, t);
    Facts(s, t);
    Facts(s, u);
    Core(s);
    if u != t { TakeOthers(s, DoAcquire(s, t, false), t, u); }
  }

  lemma AcquireOk(s: State, t: nat)
    requires Inv(s) && t < |s.frames| && s.frames[t].pc == Acquire(false)
    requires s.raw.status == Unlocked || (s.raw.status == Dead && s.mode == NoStd)
    ensures Inv(DoAcquire(s, t, false))
  {
    hide Inv;
    var s' := DoAcquire(s, t, false);
    RacerFacts(s, t);
    Facts(s, t);
    Core(s);
    RecordsOk(s, s', s.frames[t].rid);
    forall u: nat | u < |s.frames| ensures SlotOk(s', u) { AcquireSlots(s, t, u); }
    forall i: nat | i < |s'.h.line| ensures PlaceOk(s', i) { TakePlaces(s, s', t, i); }
    Assemble(s');
  }
}
