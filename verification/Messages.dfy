/** How nodes are woken for the last time, and how a queue is cancelled. */
module Messages {
  import opened Wrappers
  import opened Atomics
  import opened Machine
  import opened Invariant
  import opened Steps
  import opened OwnerSteps
  import opened CursorSteps
  import opened Progression
  import opened Effects
  import opened Order
  import opened Theorems

  // ---------- poison, without `std` ----------

  /** The step is one of a thread that holds the lock for closures: it starts one, ends one, or goes on to the next. */
  ghost predicate RunsClosures(s: State, a: Action) {
    a.slot < |s.frames| && (s.frames[a.slot].pc.Fast? || s.frames[a.slot].pc.Combine?)
  }

  /** A poisoned lock executes nothing. */
  lemma DeadStep(s: State, a: Action)
    requires Inv(s) && Enabled(s, a) && s.raw.status == Dead
    ensures Next(s, a).h.log == s.h.log && Next(s, a).mem == s.mem
    ensures !RunsClosures(s, a)
  {
    hide Inv;
    Core(s);
    assert RoleOk(s, a.slot) by { Facts(s, a.slot); }
  }

  /**
   * POISONED is absorbing, and from then on the protected memory stays as it is and no closure
   * starts or goes on: nobody steps on the fast path or in the combining loop.
   */
  lemma {:induction false} PoisonIsForever(states: seq<State>, actions: seq<Action>, k: nat, l: nat)
    requires IsRun(states, actions) && k <= l < |states| && states[k].raw.status == Dead
    ensures states[l].raw.status == Dead && states[l].h.log == states[k].h.log && states[l].mem == states[k].mem
    ensures forall j: nat | k <= j < l :: !RunsClosures(states[j], actions[j])
    decreases l - k
  {
    hide Good, Next, Inv;
    if k < l {
      RunGood(states, actions, k);
      InvOf(states[k]);
      DeadStep(states[k], actions[k]);
      NextKept(states[k], actions[k]);
      PoisonIsForever(states, actions, k + 1, l);
    }
  }

  /** A node is woken as POISONED only after the lock has been poisoned. */
  ghost predicate Doomed(s: State) {
    forall i: nat | i < |s.h.marks| && s.h.marks[i] == Settled(Poisoned) :: s.raw.status == Dead
  }

  lemma InitialDoomed(s: State)
    requires Initial(s)
    ensures Doomed(s)
  {
  }

  lemma DoomedStep(s: State, a: Action)
    requires Inv(s) && Enabled(s, a) && Doomed(s)
    ensures Doomed(Next(s, a))
  {
    hide Inv, Next;
    var s' := Next(s, a);
    Core(s);
    NextKept(s, a);
    forall i: nat | i < |s'.h.marks| && s'.h.marks[i] == Settled(Poisoned) ensures s'.raw.status == Dead {
      if i < |s.h.marks| && s.h.marks[i] == Settled(Poisoned) {
        assert s.raw.status == Dead;
      } else {
        Sentence(s, a, i);
      }
    }
  }

  /** The thread that sends POISONED has poisoned the lock before. */
  lemma Sentence(s: State, a: Action, i: nat)
    requires Inv(s) && Enabled(s, a)
    requires i < |Next(s, a).h.marks| && Next(s, a).h.marks[i] == Settled(Poisoned)
    requires i < |s.h.marks| ==> s.h.marks[i] != Settled(Poisoned)
    ensures s.raw.status == Dead
  {
    hide Inv, DoWait;
    var t := a.slot;
    Mood(s, t);
    match s.frames[t].pc
    case Wait(op) => WaitHistory(s, t, op);
    case Last(c, end) => assert RoleOk(s, t) by { Facts(s, t); }
    case Bomb(c, op, why) => assert RoleOk(s, t) by { Facts(s, t); }
    case _ =>
  }

  lemma WaitHistory(s: State, t: nat, op: WaitOp)
    requires t < |s.frames|
    ensures DoWait(s, t, op).h == s.h || DoWait(s, t, op).h == Take(s.h, t)
  {
  }

  lemma {:induction false} RunDoomed(states: seq<State>, actions: seq<Action>, k: nat)
    requires IsRun(states, actions) && k < |states|
    ensures Doomed(states[k])
  {
    hide Good, Next, Doomed;
    if k == 0 {
      InitialDoomed(states[0]);
    } else {
      RunDoomed(states, actions, k - 1);
      RunGood(states, actions, k - 1);
      InvOf(states[k - 1]);
      DoomedStep(states[k - 1], actions[k - 1]);
    }
  }

  // ---------- when a combiner stops combining ----------

  /** The combiner has done with the link of its cursor. */
  ghost predicate PastLink(pc: PC, c: nat) {
    pc.Combine? && pc.cursor == c && (pc.op.Close? || pc.op.HandOff? || pc.op.Promote?)
  }

  /** Some step of slot `t` before state `k` found the cursor `c` without a link. */
  ghost predicate FoundNoLink(states: seq<State>, actions: seq<Action>, k: nat, t: nat, c: nat) {
    exists j: nat :: j < k && j < |states| && j < |actions| && actions[j] == Step(t)
                     && t < |states[j].frames| && states[j].frames[t].pc == Combine(c, LoadNext)
                     && c < |states[j].frames| && states[j].frames[c].next.None?
  }

  /**
   * A combiner tries to close the queue, and hands the lock over when that fails, only after it has found
   * its cursor without a successor. As long as there is a link, it goes on and executes the next closure.
   */
  lemma {:induction false} CombinesWhileLinked(states: seq<State>, actions: seq<Action>, k: nat, t: nat, c: nat)
    requires IsRun(states, actions) && k < |states| && t < |states[k].frames|
    requires PastLink(states[k].frames[t].pc, c)
    ensures FoundNoLink(states, actions, k, t, c)
  {
    hide Good, Next, Inv, FoundNoLink;
    assert k > 0;
    var s, a := states[k - 1], actions[k - 1];
    RunGood(states, actions, k - 1);
    InvOf(s);
    FrameCounts(s, a);
    if a.slot != t {
      OtherSlots(s, a, t);
    } else {
      LinkLoaded(s, a, c);
    }
    if PastLink(s.frames[t].pc, c) {
      CombinesWhileLinked(states, actions, k - 1, t, c);
      FoundLater(states, actions, k - 1, t, c);
    } else {
      FoundNow(states, actions, k - 1, t, c);
    }
  }

  lemma FrameCounts(s: State, a: Action)
    requires Inv(s) && Enabled(s, a)
    ensures |Next(s, a).frames| == |s.frames|
  {
    hide Inv, Next;
    NextKept(s, a);
  }

  lemma FoundLater(states: seq<State>, actions: seq<Action>, k: nat, t: nat, c: nat)
    requires FoundNoLink(states, actions, k, t, c)
    ensures FoundNoLink(states, actions, k + 1, t, c)
  {
  }

  lemma FoundNow(states: seq<State>, actions: seq<Action>, k: nat, t: nat, c: nat)
    requires k < |states| && k < |actions| && actions[k] == Step(t) && t < |states[k].frames|
    requires states[k].frames[t].pc == Combine(c, LoadNext)
    requires c < |states[k].frames| && states[k].frames[c].next.None?
    ensures FoundNoLink(states, actions, k + 1, t, c)
  {
  }

  /** The link is loaded once, and only its absence leads past it. */
  lemma LinkLoaded(s: State, a: Action, c: nat)
    requires Inv(s) && Enabled(s, a) && a.slot < |Next(s, a).frames| && PastLink(Next(s, a).frames[a.slot].pc, c)
    ensures PastLink(s.frames[a.slot].pc, c)
            || (a == Step(a.slot) && s.frames[a.slot].pc == Combine(c, LoadNext)
                && c < |s.frames| && s.frames[c].next.None?)
  {
    hide Inv, DoWait, DoCombine, DoBomb, Settle, Take, Use, Logged, Answered, Lined, Early;
    SoundOk(s, a.slot);
    if a.Step? {
      match s.frames[a.slot].pc
      case Wait(op) => WaitCombines(s, a.slot, c);
      case Combine(d, op) => CombineLinks(s, a.slot, d, op, c);
      case Bomb(d, op, why) => BombLinks(s, a.slot, d, op, why, c);
      case _ =>
    }
  }

  lemma WaitCombines(s: State, t: nat, c: nat)
    requires t < |s.frames| && s.frames[t].pc.Wait?
    ensures |DoWait(s, t, s.frames[t].pc.wait).frames| == |s.frames|
    ensures !PastLink(DoWait(s, t, s.frames[t].pc.wait).frames[t].pc, c)
  {
  }

  lemma CombineLinks(s: State, t: nat, d: nat, op: CombineOp, c: nat)
    requires Inv(s) && t < |s.frames| && s.frames[t].pc == Combine(d, op)
    ensures d < |s.frames| && (op.Promote? ==> op.heir < |s.frames|)
    ensures |DoCombine(s, t, d, op).frames| == |s.frames|
    ensures PastLink(DoCombine(s, t, d, op).frames[t].pc, c) ==>
              PastLink(s.frames[t].pc, c) || (op.LoadNext? && d == c && s.frames[c].next.None?)
  {
    hide Inv, Settle, Take, Use, Logged;
    SoundOk(s, t);
    if op.Promote? { SuccessorFacts(s, t, op.heir); }
  }

  lemma BombLinks(s: State, t: nat, d: nat, op: BombOp, why: Why, c: nat)
    requires Inv(s) && t < |s.frames| && s.frames[t].pc == Bomb(d, op, why)
    ensures d < |s.frames|
    ensures |DoBomb(s, t, d, op, why).frames| == |s.frames| && !PastLink(DoBomb(s, t, d, op, why).frames[t].pc, c)
  {
    hide Inv, Settle, Take;
    SoundOk(s, t);
  }

  // ---------- the last message ----------

  /** The place whose node the step sends its last message. */
  ghost function Sends(s: State, a: Action): Option<nat> {
    if !a.Step? || a.slot >= |s.frames| then None
    else
      match s.frames[a.slot].pc
      case Combine(c, Advance(_)) => if c < |s.frames| then Some(s.frames[c].pos) else None
      case Bomb(c, BombAdvance(_), _) => if c < |s.frames| then Some(s.frames[c].pos) else None
      case Last(c, _) => if c < |s.frames| then Some(s.frames[c].pos) else None
      case _ => None
  }

  /** The step from `s` to `s'` settles place `i`. */
  ghost predicate Settles(s: State, s': State, i: nat) {
    i < |s'.h.marks| && s'.h.marks[i].Settled? && !(i < |s.h.marks| && s.h.marks[i].Settled?)
  }

  lemma CombineSettles(s: State, t: nat, c: nat, op: CombineOp, i: nat)
    requires Inv(s) && t < |s.frames| && s.frames[t].pc == Combine(c, op)
    ensures c < |s.frames| && (op.Promote? ==> op.heir < |s.frames|)
    ensures Settles(s, DoCombine(s, t, c, op), i) <==> op.Advance? && i == s.frames[c].pos
  {
    hide Inv;
    CursorFacts(s, t);
    if op.Promote? { SuccessorFacts(s, t, op.heir); }
    if op.Advance? { SuccessorFacts(s, t, op.next); }
  }

  lemma BombSettles(s: State, t: nat, c: nat, op: BombOp, why: Why, i: nat)
    requires Inv(s) && t < |s.frames| && s.frames[t].pc == Bomb(c, op, why)
    ensures c < |s.frames|
    ensures Settles(s, DoBomb(s, t, c, op, why), i) <==> op.BombAdvance? && i == s.frames[c].pos
  {
    hide Inv;
    CursorFacts(s, t);
    if op.BombAdvance? { SuccessorFacts(s, t, op.next); }
  }

  lemma LastSettles(s: State, t: nat, c: nat, end: End, i: nat)
    requires Inv(s) && t < |s.frames| && s.frames[t].pc == Last(c, end)
    ensures c < |s.frames|
    ensures Settles(s, DoLast(s, t, c, end), i) <==> i == s.frames[c].pos
  {
    hide Inv;
    CursorFacts(s, t);
  }

  lemma JoinSettles(s: State, a: Action, i: nat)
    requires Inv(s) && Enabled(s, a)
    requires a.Step? ==> !s.frames[a.slot].pc.Combine? && !s.frames[a.slot].pc.Bomb? && !s.frames[a.slot].pc.Last?
    ensures !Settles(s, Next(s, a), i)
  {
    hide Inv, DoWait, DoCombine, DoBomb, DoLast;
    Core(s);
    if a.Step? {
      match s.frames[a.slot].pc
      case Wait(op) => WaitHistory(s, a.slot, op);
      case Acquire(spinning) => RacerFacts(s, a.slot);
      case _ =>
    }
  }

  /** A step sends a last message exactly where it settles the place, which has not been settled before. */
  lemma SendSettles(s: State, a: Action, i: nat)
    requires Inv(s) && Enabled(s, a)
    ensures Sends(s, a) == Some(i) <==> Settles(s, Next(s, a), i)
  {
    hide Inv, Settles, DoWait, DoCombine, DoBomb, DoLast;
    if a.Step? && (s.frames[a.slot].pc.Combine? || s.frames[a.slot].pc.Bomb? || s.frames[a.slot].pc.Last?) {
      match s.frames[a.slot].pc
      case Combine(c, op) => CombineSettles(s, a.slot, c, op, i);
      case Bomb(c, op, why) => BombSettles(s, a.slot, c, op, why, i);
      case Last(c, end) => LastSettles(s, a.slot, c, end, i);
    } else {
      JoinSettles(s, a, i);
    }
  }

  lemma SenderHolds(s: State, a: Action)
    requires Inv(s) && Enabled(s, a) && Sends(s, a).Some?
    ensures Sends(s, a).value < |s.h.marks| && s.h.marks[Sends(s, a).value] == Held(a.slot)
  {
    hide Inv;
    CursorFacts(s, a.slot);
  }

  /** No two steps send the last message to the same node. */
  lemma WokenOnce(states: seq<State>, actions: seq<Action>, k: nat, l: nat)
    requires IsRun(states, actions) && k < l < |actions| && Sends(states[k], actions[k]).Some?
    ensures Sends(states[l], actions[l]) != Sends(states[k], actions[k])
  {
    hide Good, Next, Inv, Sends;
    var i := Sends(states[k], actions[k]).value;
    RunGood(states, actions, k);
    InvOf(states[k]);
    SenderHolds(states[k], actions[k]);
    RunKept(states, actions, k, k + 1);
    SendSettles(states[k], actions[k], i);
    RunKept(states, actions, k + 1, l);
    RunGood(states, actions, l);
    InvOf(states[l]);
    if Sends(states[l], actions[l]).Some? { SenderHolds(states[l], actions[l]); }
  }

  /** Whoever has been woken for good was sent the last message by some step, and by `WokenOnce` by no other. */
  lemma {:induction false} WokenBy(states: seq<State>, actions: seq<Action>, k: nat, i: nat) returns (j: nat)
    requires IsRun(states, actions) && k < |states| && i < |states[k].h.marks| && states[k].h.marks[i].Settled?
    ensures j < k && Sends(states[j], actions[j]) == Some(i)
  {
    hide Good, Next, Inv, Sends;
    assert k > 0;
    RunGood(states, actions, k - 1);
    InvOf(states[k - 1]);
    SendSettles(states[k - 1], actions[k - 1], i);
    if i < |states[k - 1].h.marks| && states[k - 1].h.marks[i].Settled? {
      j := WokenBy(states, actions, k - 1, i);
    } else {
      j := k - 1;
    }
  }

  /**
   * A kernel wake is asked for only for a sleeper: a thread that is about to make one has just taken
   * the word at its address from SLEEPING.
   */
  lemma WakesSleepers(states: seq<State>, actions: seq<Action>, k: nat, u: nat)
    requires IsRun(states, actions) && k < |actions| && actions[k].slot < |states[k + 1].frames|
    requires Waker(states[k + 1].frames[actions[k].slot].pc) == Some(u)
    ensures actions[k].Step? && Waker(states[k].frames[actions[k].slot].pc).None?
    ensures u < |states[k].frames| && states[k].frames[u].word == Sleeping
    ensures u < |states[k + 1].frames| && states[k + 1].frames[u].word in {Done, Head, Poisoned}
  {
    hide Good, Next, Inv;
    RunGood(states, actions, k);
    InvOf(states[k]);
    WakeAsked(states[k], actions[k], u);
  }

  lemma WakeAsked(s: State, a: Action, u: nat)
    requires Inv(s) && Enabled(s, a) && a.slot < |Next(s, a).frames|
    requires Waker(Next(s, a).frames[a.slot].pc) == Some(u)
    ensures a.Step? && Waker(s.frames[a.slot].pc).None?
    ensures u < |s.frames| && s.frames[u].word == Sleeping
    ensures u < |Next(s, a).frames| && Next(s, a).frames[u].word in {Done, Head, Poisoned}
  {
    hide Inv, DoWait, DoCombine, DoBomb, Settle, Take;
    SoundOk(s, a.slot);
    if a.Step? {
      match s.frames[a.slot].pc
      case Wait(op) => WaitWakesNobody(s, a.slot);
      case Combine(c, op) => CombineWakes(s, a.slot, c, op, u);
      case Bomb(c, op, why) => BombWakes(s, a.slot, c, op, why, u);
      case _ =>
    }
  }

  lemma WaitWakesNobody(s: State, t: nat)
    requires t < |s.frames| && s.frames[t].pc.Wait?
    ensures |DoWait(s, t, s.frames[t].pc.wait).frames| == |s.frames|
    ensures Waker(DoWait(s, t, s.frames[t].pc.wait).frames[t].pc).None?
  {
  }

  lemma CombineWakes(s: State, t: nat, c: nat, op: CombineOp, u: nat)
    requires Inv(s) && t < |s.frames| && s.frames[t].pc == Combine(c, op)
    ensures c < |s.frames| && (op.Promote? ==> op.heir < |s.frames|)
    ensures var s' := DoCombine(s, t, c, op);
            && |s'.frames| == |s.frames|
            && (Waker(s'.frames[t].pc) == Some(u) ==>
                  !op.WakePrev? && u < |s.frames| && s.frames[u].word == Sleeping && s'.frames[u].word in {Done, Head})
  {
    hide Inv, Settle, Take, Use, Logged;
    SoundOk(s, t);
    if op.Promote? { SuccessorFacts(s, t, op.heir); }
  }

  lemma BombWakes(s: State, t: nat, c: nat, op: BombOp, why: Why, u: nat)
    requires Inv(s) && t < |s.frames| && s.frames[t].pc == Bomb(c, op, why)
    ensures c < |s.frames|
    ensures var s' := DoBomb(s, t, c, op, why);
            && |s'.frames| == |s.frames|
            && (Waker(s'.frames[t].pc) == Some(u) ==>
                  !op.BombWake? && u < |s.frames| && s.frames[u].word == Sleeping && s'.frames[u].word == Poisoned)
  {
    hide Inv, Settle, Take;
    SoundOk(s, t);
  }

  /**
   * What a node is told last stays what it was told: DONE if its closure ran to its end, and
   * POISONED, only without `std`, if its closure never runs or its panic took the queue down.
   */
  lemma LastMessages(states: seq<State>, actions: seq<Action>, k: nat, l: nat, i: nat)
    requires IsRun(states, actions) && k <= l < |states| && i < |states[k].h.marks| && states[k].h.marks[i].Settled?
    ensures i < |states[k].h.line| <= |states[l].h.line| == |states[l].h.marks|
    ensures states[l].h.marks[i] == states[k].h.marks[i] && RunOf(states[l], i) == RunOf(states[k], i)
    ensures LastMessage(states[k], RunOf(states[k], i), states[k].h.marks[i].message)
  {
    hide Good, Next, Inv, LastMessage, RunOf, Kept;
    RunGood(states, actions, k);
    InvOf(states[k]);
    Core(states[k]);
    MessageSent(states[k], i);
    RunKept(states, actions, k, l);
    RunGood(states, actions, l);
    InvOf(states[l]);
    Core(states[l]);
    var message := states[k].h.marks[i].message;
    if message == Poisoned {
      RunDoomed(states, actions, k);
      PoisonIsForever(states, actions, k, l);
    }
    MessageKept(states[k], states[l], i);
  }

  ghost predicate LastMessage(s: State, run: Option<nat>, message: Word) {
    && (run.Some? ==> run.value < |s.h.log|)
    && (message == Done <==> run.Some? && (s.mode == Std || !OutcomeAt(s.h.init, s.h.log, run.value).Panicked?))
    && (message != Done <==> message == Poisoned && s.mode == NoStd)
  }

  lemma MessageSent(s: State, i: nat)
    requires Inv(s) && i < |s.h.marks| == |s.h.line| && s.h.marks[i].Settled?
    ensures LastMessage(s, RunOf(s, i), s.h.marks[i].message)
  {
    hide Inv;
    Spot(s, i);
    Recorded(s, s.h.line[i].rid);
    if RunOf(s, i).Some? { LogEntry(s, RunOf(s, i).value); }
  }

  /** A closure whose node has been woken for good does not run later. */
  lemma MessageKept(s: State, s': State, i: nat)
    requires Inv(s) && Inv(s') && Kept(s, s') && i < |s.h.marks| == |s.h.line| && s.h.marks[i].Settled?
    requires s.h.marks[i].message == Poisoned ==> s'.h.log == s.h.log
    ensures i < |s.h.line| <= |s'.h.line| == |s'.h.marks|
    ensures s'.h.marks[i] == s.h.marks[i] && RunOf(s', i) == RunOf(s, i)
  {
    hide Inv;
    Spot(s, i);
    Core(s');
    Spot(s', i);
    var r := s.h.line[i].rid;
    assert RequestKept(s.h.calls[r], s'.h.calls[r]);
    Recorded(s', r);
    if s.h.calls[r].run.None? && s'.h.calls[r].run.Some? {
      LogEntry(s, s'.h.calls[r].run.value);
      assert false;
    }
  }
}
