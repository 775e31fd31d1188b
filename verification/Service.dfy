/**
 * A queued request is served however many others keep arriving: they stay behind it, and cost it
 * and the requests before it no step.
 */
module Service {
  import opened Wrappers
  import Tasks
  import opened Atomics
  import opened Machine
  import opened Invariant
  import opened Steps
  import opened OwnerSteps
  import opened CursorSteps
  import opened Progression
  import opened Runs
  import opened Effects
  import opened Order
  import opened Progress
  import opened Theorems

  /** Place `i` waits in the open chain: it has not executed, and no thread has gone on behind it. */
  ghost predicate Awaits(s: State, i: nat) {
    s.h.start <= i < |s.h.line| && s.h.done <= i && s.h.front <= i + 1
  }

  /** A request is senior if it is one of the first `limit` that were called. */
  predicate Senior(f: Frame, limit: nat) {
    f.rid < limit
  }

  /** The other requests are not in the queue yet, or behind place `i`. */
  ghost predicate Behind(s: State, i: nat, limit: nat) {
    forall u: nat | u < |s.frames| && !Senior(s.frames[u], limit) :: BehindAt(s.frames[u], i)
  }

  ghost predicate BehindAt(f: Frame, i: nat) {
    f.pc.Idle? || f.pc.PeekTail? || f.pc.Enqueue? || (InLine(f) && f.pos > i)
  }

  /** At the moment from which it counts, every request is senior. */
  lemma BehindStart(s: State, i: nat)
    requires Inv(s)
    ensures Behind(s, i, |s.h.calls|)
  {
    hide Inv;
    forall u: nat | u < |s.frames| && !Senior(s.frames[u], |s.h.calls|) ensures s.frames[u].pc.Idle? {
      Facts(s, u);
    }
  }

  /** A node that no thread has reached awaits its execution. */
  lemma JoinAwaits(s: State, i: nat)
    requires Inv(s) && i < |s.h.line| == |s.h.marks| && Unreached(s.h.marks[i])
    ensures Awaits(s, i)
  {
    hide Inv;
    Core(s);
    Spot(s, i);
  }

  // ---------- the others ----------

  /** While place `i` awaits, a request behind it can only join the queue and wait. */
  ghost predicate Harmless(f: Frame) {
    f.pc.PeekTail? || f.pc.Enqueue? || f.pc.Link? || (f.pc.Wait? && (f.word == Waiting || f.word == Sleeping))
  }

  lemma JuniorHarmless(s: State, i: nat, u: nat)
    requires Inv(s) && Awaits(s, i) && u < |s.frames| && BehindAt(s.frames[u], i) && !s.frames[u].pc.Idle?
    ensures Harmless(s.frames[u])
  {
    hide Inv, ClosureOk;
    Core(s);
    Facts(s, u);
    if InLine(s.frames[u]) { Spot(s, s.frames[u].pos); }
  }

  /** Nothing that matters to place `i` changes. */
  ghost predicate Aside(s: State, s': State) {
    && s'.h.start == s.h.start && s'.h.front == s.h.front && s'.h.done == s.h.done
    && s'.raw.status == s.raw.status && s.h.line <= s'.h.line
  }

  lemma JuniorStep(s: State, i: nat, t: nat)
    requires Inv(s) && Awaits(s, i) && Enabled(s, Step(t)) && BehindAt(s.frames[t], i)
    ensures Waker(s.frames[t].pc).None? && StaysBehind(s, Next(s, Step(t)), t, i)
  {
    hide Inv, StaysBehind, DoPeekTail, DoEnqueue, DoLink, DoWait;
    JuniorHarmless(s, i, t);
    match s.frames[t].pc
    case PeekTail => JuniorJoins(s, i, t);
    case Enqueue => JuniorJoins(s, i, t);
    case Link(prev) => JuniorLinks(s, i, t, prev);
    case Wait(op) => JuniorWaits(s, i, t, op);
  }

  ghost predicate StaysBehind(s: State, s': State, t: nat, i: nat)
    requires t < |s.frames|
  {
    && |s'.frames| == |s.frames| && s'.frames[t].rid == s.frames[t].rid && BehindAt(s'.frames[t], i)
    && Aside(s, s') && HeadRank(s') == HeadRank(s)
  }

  /** The tail is taken as long as place `i` awaits. */
  lemma JuniorJoins(s: State, i: nat, t: nat)
    requires Inv(s) && Awaits(s, i) && t < |s.frames|
    ensures s.frames[t].pc.PeekTail? ==> StaysBehind(s, DoPeekTail(s, t), t, i)
    ensures s.frames[t].pc.Enqueue? ==> StaysBehind(s, DoEnqueue(s, t), t, i)
  {
    hide Inv, Early;
    Core(s);
    Spot(s, s.h.start);
  }

  lemma JuniorLinks(s: State, i: nat, t: nat, prev: nat)
    requires Inv(s) && Awaits(s, i) && t < |s.frames| && s.frames[t].pc == Link(prev) && BehindAt(s.frames[t], i)
    ensures prev < |s.frames| && StaysBehind(s, DoLink(s, t, prev), t, i)
  {
    hide Inv;
    PredecessorAlive(s, t, prev);
  }

  lemma JuniorWaits(s: State, i: nat, t: nat, op: WaitOp)
    requires Inv(s) && Awaits(s, i) && t < |s.frames| && s.frames[t].pc == Wait(op) && BehindAt(s.frames[t], i)
    requires Harmless(s.frames[t])
    ensures StaysBehind(s, DoWait(s, t, op), t, i)
  {
    hide Inv, Observe;
    assert WordOk(s, t) by { Facts(s, t); }
  }

  lemma SameRequest(s: State, a: Action)
    requires Inv(s) && Enabled(s, a) && !a.Call?
    ensures |Next(s, a).frames| == |s.frames| && Next(s, a).frames[a.slot].rid == s.frames[a.slot].rid
  {
    hide Inv, DoCombine, DoBomb, Settle, Take, Use, Logged, Answered, Lined, Early, Sound;
    if a.Step? && (s.frames[a.slot].pc.Combine? || s.frames[a.slot].pc.Bomb?) { SameDriver(s, a.slot); }
  }

  lemma SameDriver(s: State, t: nat)
    requires Inv(s) && t < |s.frames| && (s.frames[t].pc.Combine? || s.frames[t].pc.Bomb?)
    ensures |Next(s, Step(t)).frames| == |s.frames| && Next(s, Step(t)).frames[t].rid == s.frames[t].rid
  {
    hide Inv, SlotOk, Settle, Take, Use, Logged;
    SoundOk(s, t);
  }

  lemma BehindKept(s: State, a: Action, i: nat, limit: nat)
    requires Inv(s) && Enabled(s, a) && Awaits(s, i) && Behind(s, i, limit) && limit <= |s.h.calls|
    ensures Behind(Next(s, a), i, limit)
  {
    hide Inv, Next;
    var s', t := Next(s, a), a.slot;
    forall u: nat | u < |s'.frames| && !Senior(s'.frames[u], limit) ensures BehindAt(s'.frames[u], i) {
      if u != t {
        FrameCount(s, a);
        OtherSlots(s, a, u);
      } else if a.Call? {
        CallBehind(s, t, a.task);
      } else {
        SameRequest(s, a);
        if a.Step? { JuniorStep(s, i, t); } else { SpuriousBehind(s, t, i); }
      }
    }
  }

  lemma FrameCount(s: State, a: Action)
    requires Inv(s) && Enabled(s, a)
    ensures |Next(s, a).frames| == |s.frames|
  {
    hide Inv;
    if !a.Call? { SameRequest(s, a); }
  }

  lemma CallBehind(s: State, t: nat, task: Tasks.Task)
    requires t < |s.frames|
    ensures |Next(s, Call(t, task)).frames| == |s.frames| && Next(s, Call(t, task)).frames[t].pc.PeekTail?
  {
  }

  lemma SpuriousBehind(s: State, t: nat, i: nat)
    requires Enabled(s, Spurious(t)) && BehindAt(s.frames[t], i)
    ensures BehindAt(Next(s, Spurious(t)).frames[t], i)
  {
  }

  // ---------- the measure ----------

  ghost function SeniorRank(s: State, limit: nat, u: nat): nat
    requires u < |s.frames|
  {
    if Senior(s.frames[u], limit) then RankAt(s, u) else 0
  }

  ghost function SeniorSum(s: State, limit: nat, n: nat): nat
    requires n <= |s.frames|
  {
    if n == 0 then 0 else SeniorSum(s, limit, n - 1) + SeniorRank(s, limit, n - 1)
  }

  /** What the senior requests have before them, up to place `i`. */
  ghost function ServiceRank(s: State, i: nat, limit: nat): nat {
    SeniorSum(s, limit, |s.frames|) + 30 * (if s.h.front <= i then i + 1 - s.h.front else 0) + HeadRank(s)
  }

  lemma {:induction false} SeniorChange(s: State, s': State, limit: nat, n: nat, t: nat, v: nat)
    requires n <= |s.frames| == |s'.frames| && t < |s.frames| && v < |s.frames|
    requires forall u: nat | u < n && u != t && u != v :: SeniorRank(s', limit, u) <= SeniorRank(s, limit, u)
    ensures SeniorSum(s', limit, n) <= SeniorSum(s, limit, n)
              + (if t < n then SeniorRank(s', limit, t) - SeniorRank(s, limit, t) else 0)
              + (if v < n && v != t then SeniorRank(s', limit, v) - SeniorRank(s, limit, v) else 0)
  {
    if n > 0 { SeniorChange(s, s', limit, n - 1, t, v); }
  }

  lemma OthersSenior(s: State, t: nat, limit: nat, u: nat)
    requires Inv(s) && Enabled(s, Step(t)) && u < |s.frames| && u != t
    ensures |Next(s, Step(t)).frames| == |s.frames|
    ensures SeniorRank(Next(s, Step(t)), limit, u)
            <= SeniorRank(s, limit, u) + (if Waker(s.frames[t].pc) == Some(u) then 2 else 0)
  {
    hide Inv, Next, RankAt, Waker;
    OthersRank(s, t, u);
    OtherSlots(s, Step(t), u);
  }

  /** Joining at the end of the queue changes nothing for place `i`. */
  lemma SharedUpTo(s: State, s': State, i: nat)
    requires Inv(s) && Inv(s') && Awaits(s, i) && Awaits(s', i) && |s.h.line| <= |s'.h.line|
    ensures var left := (if s.h.front <= i then i + 1 - s.h.front else 0);
            var left' := (if s'.h.front <= i then i + 1 - s'.h.front else 0);
            30 * left' + HeadRank(s') - 30 * left - HeadRank(s) <= Shared(s') - Shared(s)
  {
    hide Inv, HeadRank;
    Core(s);
    Core(s');
  }

  /** A step that is not a spin brings the senior requests closer to the service of place `i`. */
  lemma SeniorDrops(s: State, t: nat, i: nat, limit: nat)
    requires Inv(s) && Enabled(s, Step(t)) && Awaits(s, i) && Awaits(Next(s, Step(t)), i)
    requires Senior(s.frames[t], limit)
    ensures if Spins(s, t) then Next(s, Step(t)) == s
            else ServiceRank(Next(s, Step(t)), i, limit) < ServiceRank(s, i, limit)
  {
    hide Inv, Waker, Awaits, Shared, HeadRank, RankAt;
    if !Spins(s, t) {
      hide Next;
      var s' := Next(s, Step(t));
      ActorDrops(s, t);
      SameRequest(s, Step(t));
      NextOk(s, Step(t));
      LineGrows(s, Step(t));
      SharedUpTo(s, s', i);
      forall u: nat | u < |s.frames| && u != t
        ensures SeniorRank(s', limit, u)
                <= SeniorRank(s, limit, u) + (if Waker(s.frames[t].pc) == Some(u) then 2 else 0)
      {
        OthersSenior(s, t, limit, u);
      }
      var w := Waker(s.frames[t].pc);
      SeniorChange(s, s', limit, |s.frames|, t, if w.Some? && w.value < |s.frames| then w.value else t);
    }
  }

  lemma LineGrows(s: State, a: Action)
    requires Inv(s) && Enabled(s, a)
    ensures |s.h.line| <= |Next(s, a).h.line| && |s.h.calls| <= |Next(s, a).h.calls|
  {
    hide Inv, Next;
    NextKept(s, a);
  }

  /** What a request behind it does costs nothing. */
  lemma JuniorKeeps(s: State, t: nat, i: nat, limit: nat)
    requires Inv(s) && Enabled(s, Step(t)) && Awaits(s, i) && BehindAt(s.frames[t], i) && !Senior(s.frames[t], limit)
    ensures ServiceRank(Next(s, Step(t)), i, limit) <= ServiceRank(s, i, limit)
  {
    hide Inv, Next, Waker, Awaits, HeadRank, RankAt;
    var s' := Next(s, Step(t));
    JuniorStep(s, i, t);
    forall u: nat | u < |s.frames| && u != t ensures SeniorRank(s', limit, u) <= SeniorRank(s, limit, u) {
      OthersSenior(s, t, limit, u);
    }
    SeniorChange(s, s', limit, |s.frames|, t, t);
  }

  /** Nor does a new call. */
  lemma CallKeeps(s: State, t: nat, task: Tasks.Task, i: nat, limit: nat)
    requires Inv(s) && Enabled(s, Call(t, task)) && Awaits(s, i) && limit <= |s.h.calls|
    ensures ServiceRank(Next(s, Call(t, task)), i, limit) <= ServiceRank(s, i, limit)
  {
    hide Inv;
    Core(s);
    var s' := Next(s, Call(t, task));
    Spot(s, s.h.start);
    SeniorChange(s, s', limit, |s.frames|, t, t);
  }

  lemma SpuriousKeeps(s: State, t: nat, i: nat, limit: nat)
    requires Inv(s) && Enabled(s, Spurious(t))
    ensures ServiceRank(Next(s, Spurious(t)), i, limit)
            <= ServiceRank(s, i, limit) + (if Senior(s.frames[t], limit) then 2 else 0)
  {
    hide Inv;
    SeniorChange(s, Next(s, Spurious(t)), limit, |s.frames|, t, t);
    assert WordOk(s, t) by { Facts(s, t); }
  }

  // ---------- the theorems ----------

  /** How many steps from state `k` to state `l` were those of senior requests, without spins. */
  ghost function SeniorWorks(states: seq<State>, actions: seq<Action>, k: nat, l: nat, limit: nat): nat
    requires IsRun(states, actions) && k <= l < |states|
  {
    if k == l then 0
    else
      var s, a := states[l - 1], actions[l - 1];
      SeniorWorks(states, actions, k, l - 1, limit)
      + (if a.Step? && Senior(s.frames[a.slot], limit) && !Spins(s, a.slot) then 1 else 0)
  }

  ghost function SeniorSpurs(states: seq<State>, actions: seq<Action>, k: nat, l: nat, limit: nat): nat
    requires IsRun(states, actions) && k <= l < |states|
  {
    if k == l then 0
    else
      var s, a := states[l - 1], actions[l - 1];
      SeniorSpurs(states, actions, k, l - 1, limit)
      + (if a.Spurious? && Senior(s.frames[a.slot], limit) then 1 else 0)
  }

  lemma {:induction false} RunBehind(states: seq<State>, actions: seq<Action>, k: nat, l: nat, i: nat)
    requires IsRun(states, actions) && k <= l < |states|
    requires forall j: nat | k <= j <= l :: Awaits(states[j], i)
    ensures Behind(states[l], i, |states[k].h.calls|) && |states[k].h.calls| <= |states[l].h.calls|
  {
    hide Good, Next, Inv, Awaits, Behind;
    if k == l {
      RunGood(states, actions, k);
      InvOf(states[k]);
      BehindStart(states[k], i);
    } else {
      RunBehind(states, actions, k, l - 1, i);
      RunGood(states, actions, l - 1);
      InvOf(states[l - 1]);
      LineGrows(states[l - 1], actions[l - 1]);
      BehindKept(states[l - 1], actions[l - 1], i, |states[k].h.calls|);
    }
  }

  /**
   * Service under load. While a place of the queue awaits its execution, the requests that had been
   * called before make at most as many steps that count as the measure says, and two more for each
   * of their spurious wakes, whatever calls arrive in the meantime. (Once a bomb has closed the
   * queue over the place, the place no longer awaits: it is told by the bomb's next step.)
   */
  lemma {:induction false} BoundedService(states: seq<State>, actions: seq<Action>, k: nat, l: nat, i: nat)
    requires IsRun(states, actions) && k <= l < |states|
    requires forall j: nat | k <= j <= l :: Awaits(states[j], i)
    ensures var limit := |states[k].h.calls|;
            SeniorWorks(states, actions, k, l, limit) + ServiceRank(states[l], i, limit)
            <= ServiceRank(states[k], i, limit) + 2 * SeniorSpurs(states, actions, k, l, limit)
  {
    hide Good, Next, Inv, Awaits, Behind, BehindAt, ServiceRank, Spins;
    if k < l {
      var limit, s, a := |states[k].h.calls|, states[l - 1], actions[l - 1];
      BoundedService(states, actions, k, l - 1, i);
      RunBehind(states, actions, k, l - 1, i);
      RunGood(states, actions, l - 1);
      InvOf(s);
      assert states[l] == Next(s, a) && Awaits(Next(s, a), i);
      match a
      case Call(t, task) => CallKeeps(s, t, task, i, limit);
      case Spurious(t) => SpuriousKeeps(s, t, i, limit);
      case Step(t) =>
        if Senior(s.frames[t], limit) {
          SeniorDrops(s, t, i, limit);
        } else {
          assert BehindAt(s.frames[t], i) by { BehindOf(s, i, limit, t); }
          JuniorKeeps(s, t, i, limit);
        }
    }
  }

  lemma BehindOf(s: State, i: nat, limit: nat, u: nat)
    requires Behind(s, i, limit) && u < |s.frames| && !Senior(s.frames[u], limit)
    ensures BehindAt(s.frames[u], i)
  {
  }

  /** A thread that owns the lock, drives the chain, or is about to wake somebody, is senior. */
  lemma ActiveSenior(s: State, i: nat, limit: nat, u: nat)
    requires Inv(s) && Awaits(s, i) && Behind(s, i, limit) && u < |s.frames|
    requires Owns(s.frames[u]) || Drives(s.frames[u].pc) || Waker(s.frames[u].pc).Some?
    ensures Senior(s.frames[u], limit)
  {
    hide Inv, Awaits;
    if !Senior(s.frames[u], limit) { JuniorHarmless(s, i, u); }
  }

  lemma OwnerServes(s: State, i: nat, limit: nat) returns (g: nat)
    requires Inv(s) && NoLostWake(s) && Awaits(s, i) && Behind(s, i, limit) && s.raw.status == Locked
    ensures CanGo(s, g) && Senior(s.frames[g], limit)
  {
    hide Inv, NoLostWake, Behind;
    Core(s);
    var o := s.h.owner.value;
    ActiveSenior(s, i, limit, o);
    if s.frames[o].pc.Wait? {
      g := WakerGoes(s, o);
      if g != o { ActiveSenior(s, i, limit, g); }
    } else if Cursor(s.frames[o].pc).Some? {
      g := DriverGoes(s, o);
      if g != o {
        assert RoleOk(s, o) by { Facts(s, o); }
        if !Senior(s.frames[g], limit) { BehindOf(s, i, limit, g); }
      }
    } else {
      g := o;
    }
  }

  /**
   * No starvation by arrivals: one of those requests can always make a step that counts. There is
   * one exception. A bomb that has come to place `i` itself waits for a node that has joined behind
   * it to be linked, and that node's thread is about to do it.
   */
  lemma SeniorGoes(s: State, i: nat, limit: nat) returns (g: nat)
    requires Inv(s) && NoLostWake(s) && Awaits(s, i) && Behind(s, i, limit)
    ensures CanGo(s, g)
    ensures Senior(s.frames[g], limit) || (s.raw.status == Dead && Linking(s, g, i + 1))
  {
    hide Inv, NoLostWake, Behind;
    Core(s);
    if s.raw.status == Locked {
      g := OwnerServes(s, i, limit);
    } else if s.h.start < s.h.front {
      var d := s.h.marks[s.h.front - 1].keeper;
      ActiveSenior(s, i, limit, d);
      g := DriverGoes(s, d);
      if g != d && !Senior(s.frames[g], limit) { BehindOf(s, i, limit, g); }
    } else {
      Spot(s, s.h.start);
      g := s.h.line[s.h.start].slot;
      assert IdentityOk(s, g) && WordOk(s, g) by { Facts(s, g); }
      if !Senior(s.frames[g], limit) { BehindOf(s, i, limit, g); }
    }
  }

  /** In every run, as long as the place awaits. */
  lemma AlwaysServed(states: seq<State>, actions: seq<Action>, k: nat, l: nat, i: nat) returns (g: nat)
    requires IsRun(states, actions) && k <= l < |states|
    requires forall j: nat | k <= j <= l :: Awaits(states[j], i)
    ensures CanGo(states[l], g)
    ensures || Senior(states[l].frames[g], |states[k].h.calls|)
            || (states[l].raw.status == Dead && Linking(states[l], g, i + 1))
  {
    hide Good, Next, Inv, Behind, Awaits, NoLostWake, Linking;
    RunGood(states, actions, l);
    InvOf(states[l]);
    RunBehind(states, actions, k, l, i);
    g := SeniorGoes(states[l], i, |states[k].h.calls|);
  }

  // ---------- how the wait ends ----------

  /** A bomb has closed the queue over place `i`, and its next step tells it. */
  ghost predicate AboutToTell(s: State, t: nat, i: nat) {
    && t < |s.frames| && i < |s.h.line| == |s.h.marks|
    && s.frames[t].pc.Last? && s.frames[t].pc.end.Finish?
    && s.frames[t].pc.cursor == s.h.line[i].slot && s.h.marks[i] == Held(t)
  }

  /**
   * What awaits is served: the wait ends with the execution of the closure, or, when the lock is
   * poisoned, with the last message POISONED, or one step of a bomb before it.
   */
  lemma AwaitsUntil(s: State, a: Action, i: nat)
    requires Inv(s) && Enabled(s, a) && Awaits(s, i) && !Awaits(Next(s, a), i)
    ensures var s' := Next(s, a);
            && i < |s'.h.line| == |s'.h.marks|
            && (|| RunOf(s', i).Some?
                || (s'.raw.status == Dead && (s'.h.marks[i] == Settled(Poisoned) || AboutToTell(s', a.slot, i))))
  {
    hide Inv, Next;
    NextKept(s, a);
    NextOk(s, a);
    Core(Next(s, a));
    RunOfOk(Next(s, a), i);
    if Next(s, a).h.done <= i { PassedBy(s, a, i); }
  }

  lemma PassedBy(s: State, a: Action, i: nat)
    requires Inv(s) && Enabled(s, a) && Awaits(s, i) && !Awaits(Next(s, a), i) && Next(s, a).h.done <= i
    ensures Next(s, a).raw.status == Dead && i < |Next(s, a).h.marks|
    ensures Next(s, a).h.marks[i] == Settled(Poisoned) || AboutToTell(Next(s, a), a.slot, i)
  {
    hide Inv, Awaits, DoWait, DoCombine, DoBomb, AboutToTell;
    if a.Step? && (s.frames[a.slot].pc.Wait? || s.frames[a.slot].pc.Combine? || s.frames[a.slot].pc.Bomb?) {
      match s.frames[a.slot].pc
      case Wait(op) => WaitStays(s, a.slot, op, i);
      case Combine(c, op) => CombineStays(s, a.slot, c, op, i);
      case Bomb(c, op, why) => BombPasses(s, a.slot, c, op, why, i);
    } else {
      RestStays(s, a, i);
    }
  }

  lemma RestStays(s: State, a: Action, i: nat)
    requires Inv(s) && Enabled(s, a) && Awaits(s, i)
    requires a.Step? ==> var pc := s.frames[a.slot].pc; !pc.Wait? && !pc.Combine? && !pc.Bomb?
    ensures Awaits(Next(s, a), i)
  {
    hide Inv, Awaits, DoWait, DoCombine, DoBomb, DoLink, DoAcquire, DoLast, DoLastWake, DoBow, DoUnlock, DoReturn;
    if a.Step? && InLine(s.frames[a.slot]) { LineStays(s, a.slot, i); } else { JoinStays(s, a, i); }
  }

  lemma JoinStays(s: State, a: Action, i: nat)
    requires Enabled(s, a) && Awaits(s, i)
    requires a.Step? ==> !InLine(s.frames[a.slot])
    ensures Awaits(Next(s, a), i)
  {
    hide DoWait, DoCombine, DoBomb, DoLink, DoAcquire, DoLast, DoLastWake, DoBow, DoUnlock, DoReturn, Early;
  }

  lemma LineStays(s: State, t: nat, i: nat)
    requires Inv(s) && Awaits(s, i) && Enabled(s, Step(t)) && InLine(s.frames[t])
    requires !s.frames[t].pc.Wait? && !s.frames[t].pc.Combine? && !s.frames[t].pc.Bomb?
    ensures Awaits(Next(s, Step(t)), i)
  {
    hide Inv, SlotOk, PlaceOk, DoWait, DoCombine, DoBomb;
    hide DoPeekTail, DoFastLock, DoFastBegin, DoFastRun, DoFastDrop, DoEnqueue;
    if s.frames[t].pc.Acquire? { RacerFacts(s, t); }
  }

  lemma WaitStays(s: State, t: nat, op: WaitOp, i: nat)
    requires Inv(s) && Awaits(s, i) && t < |s.frames| && s.frames[t].pc == Wait(op)
    ensures Awaits(DoWait(s, t, op), i)
  {
    hide Inv;
    Core(s);
    Facts(s, t);
  }

  lemma CombineStays(s: State, t: nat, c: nat, op: CombineOp, i: nat)
    requires Inv(s) && Awaits(s, i) && t < |s.frames| && s.frames[t].pc == Combine(c, op)
    ensures c < |s.frames| && (op.Promote? ==> op.heir < |s.frames|)
    ensures DoCombine(s, t, c, op).h.done <= i ==> Awaits(DoCombine(s, t, c, op), i)
  {
    hide Inv;
    Core(s);
    CursorFacts(s, t);
    if op.Promote? { SuccessorFacts(s, t, op.heir); }
    assert RoleOk(s, t) by { Facts(s, t); }
    Spot(s, |s.h.line| - 1);
  }

  /** A bomb goes on behind place `i`, or closes the queue over it, only as it tells it. */
  lemma BombPasses(s: State, t: nat, c: nat, op: BombOp, why: Why, i: nat)
    requires Inv(s) && Awaits(s, i) && t < |s.frames| && s.frames[t].pc == Bomb(c, op, why)
    ensures c < |s.frames|
    ensures var s' := DoBomb(s, t, c, op, why);
            || Awaits(s', i)
            || (&& s'.raw.status == Dead && i < |s'.h.marks|
                && (s'.h.marks[i] == Settled(Poisoned) || AboutToTell(s', t, i)))
  {
    hide Inv;
    Core(s);
    CursorFacts(s, t);
    assert RoleOk(s, t) by { Facts(s, t); }
    Spot(s, |s.h.line| - 1);
  }

  /** The last step of the wait. */
  lemma Told(s: State, t: nat, i: nat)
    requires Inv(s) && AboutToTell(s, t, i)
    ensures CanGo(s, t)
    ensures i < |Next(s, Step(t)).h.marks| && Next(s, Step(t)).h.marks[i] == Settled(Poisoned)
  {
    hide Inv;
    CursorFacts(s, t);
    Spot(s, i);
  }
}
