/** The closures that are submitted to the lock, and what running one does. */
module Tasks {
  /** The value protected by the lock. */
  type User(!new)
  /** What a closure returns. */
  type Value(!new)

  /** All the memory a task may touch: the protected value, and the flag of a wrapping `poison::Lock`. */
  datatype Memory = Memory(user: User, poisoned: bool)

  /** What a task hands back: a closure's value, `Ok(())`, `Err(LockPoisoned)` or `try_unpoison`'s answer. */
  datatype Reply = Value(value: Value) | Unit | Rejected | Answer(cleared: bool)

  datatype Outcome = Returned(reply: Reply) | Panicked

  datatype Effect = Effect(mem: Memory, out: Outcome)

  /** A closure is any total function; a panicking one may have changed the memory before it panicked. */
  type Task = Memory -> Effect
}

/** The atomic operations of `RawLock` and `Futex`, as functions on the words they act on. */
module Atomics {
  import opened Wrappers

  /** `RawLock::status`: UNLOCKED, LOCKED and, without `std`, POISONED. */
  datatype Status = Unlocked | Locked | Dead

  /** A node's futex word: WAITING, DONE, HEAD, SLEEPING and, without `std`, POISONED. */
  datatype Word = Waiting | Done | Head | Sleeping | Poisoned

  /** The cargo feature `std`. */
  datatype Mode = Std | NoStd

  datatype Try = Acquired | Busy | Refused

  datatype Raw = Raw(status: Status, tail: Option<nat>) {
    function SwapTail(node: nat): (Raw, Option<nat>) {
      (this.(tail := Some(node)), tail)
    }

    function TryClose(expected: nat): (Raw, bool) {
      if tail == Some(expected) then (this.(tail := None), true) else (this, false)
    }

    function TryAcquire(mode: Mode): (Raw, Try) {
      match status
      case Unlocked => (this.(status := Locked), Acquired)
      case Locked => (this, Busy)
      case Dead => (this, if mode == NoStd then Refused else Busy)
    }
  }

  /** `Futex::notify`: the new word, and whether the kernel has to be asked for a wake-up. */
  function Swap(word: Word, message: Word): (Word, bool) {
    (message, word == Sleeping)
  }
}

/** Every interleaving of any number of requests, one step per atomic operation. */
module Machine {
  import opened Wrappers
  import opened Tasks
  import opened Atomics

  const SPIN_LIMIT: nat := 100

  /** Why a bomb went off: the closure it was executing panicked, or the lock refused to be acquired. */
  datatype Why = Unwinding | Turned

  /** What follows the last notification of a thread. */
  datatype End = Release | Leave | Finish(why: Why)

  datatype Verdict = Finished | Cancelled | Unwound

  /** The fast path, once it holds the lock. */
  datatype FastOp = FastBegin | FastRun(seen: Memory) | FastDrop(out: Outcome)

  /** Waiting for the predecessor: `attach`'s spin loop, `Node::wait` and `Futex::wait`. */
  datatype WaitOp = Spin(left: nat) | Park | Recheck | Syscall | Parked | Reload

  /** The combining loop with its two ways out. */
  datatype CombineOp =
    | WakePrev(address: nat)  // the kernel wake of the previous cursor is still to be made
    | Begin
    | Execute(seen: Memory)
    | LoadNext
    | Advance(next: nat)
    | Close
    | HandOff
    | Promote(heir: nat)

  /** `Bomb::drop`. */
  datatype BombOp = Poison | BombWake(address: nat) | BombNext | BombAdvance(next: nat) | BombClose | BombSpin

  /** The next atomic operation of a request. */
  datatype PC =
    | Idle
    | PeekTail
    | FastLock
    | Fast(fast: FastOp)
    | Enqueue
    | Link(prev: nat)
    | Wait(wait: WaitOp)
    | Acquire(spinning: bool)
    | Combine(cursor: nat, op: CombineOp)
    | Bow(cursor: nat, address: nat)   // the successor has been sent HEAD, its kernel wake is still to be made
    | Last(cursor: nat, end: End)
    | LastWake(address: nat, end: End)
    | Unlock
    | Bomb(cursor: nat, bomb: BombOp, why: Why)
    | Return(verdict: Verdict)

  /**
   * One stack slot. Its index is the address of the node that lives in it, so an address is
   * used again as soon as the request that owned it has returned.
   */
  datatype Frame = Frame(
    pc: PC,
    task: Task,
    rid: nat,                 // history: the request in the slot
    pos: nat,                 // history: its place in `line`
    word: Word,
    next: Option<nat>,
    full: bool,               // the closure has not been moved out of its slot
    started: bool,
    result: Option<Outcome>)

  /** What the caller of `run` gets; `Garbage` is an uninitialised result slot. */
  datatype Answer = Got(out: Outcome) | Denied | Crashed | Garbage

  datatype Ret = Ret(answer: Answer, at: nat)

  /** History of one request; `run` is its index in the log, `uses` counts moves out of its closure. */
  datatype Request = Request(task: Task, slot: nat, born: nat, run: Option<nat>, uses: nat, ret: Option<Ret>)

  datatype Run = Run(rid: nat, task: Task, out: Outcome)

  /** One successful `swap_tail`; `head` when it found an empty tail. */
  datatype Entry = Entry(slot: nat, rid: nat, head: bool)

  /** Swapped in but not linked; linked; being looked after by a thread; woken for the last time. */
  datatype Mark = Fresh | Queued | Held(keeper: nat) | Settled(message: Word)

  /** What has happened so far. No step looks at it. */
  datatype History = History(
    init: Memory,
    calls: seq<Request>,
    log: seq<Run>,
    line: seq<Entry>,
    marks: seq<Mark>,
    start: nat,               // where the open chain begins
    front: nat,               // how many places some thread has reached
    done: nat,                // how many places have executed
    owner: Option<nat>,       // the slot that owns the lock
    openedAt: nat,            // log length when the open chain began
    early: set<nat>)          // requests past the tail check at that moment

  datatype State = State(mode: Mode, raw: Raw, mem: Memory, frames: seq<Frame>, h: History)

  datatype Action = Call(slot: nat, task: Task) | Step(slot: nat) | Spurious(slot: nat)

  function Set<T>(q: seq<T>, i: nat, x: T): seq<T> {
    if i < |q| then q[i := x] else q
  }

  function Goto(s: State, t: nat, pc: PC): State
    requires t < |s.frames|
  {
    s.(frames := s.frames[t := s.frames[t].(pc := pc)])
  }

  /** The thread makes the node at place `h.front` its cursor. */
  function Take(h: History, t: nat): History {
    h.(marks := Set(h.marks, h.front, Held(t)), front := h.front + 1)
  }

  function MakeNode(f: Frame): Frame {
    f.(pc := Enqueue, word := Waiting, next := None, full := true, started := false, result := None)
  }

  /** The closure of request `rid` is moved out of its slot. */
  function Use(h: History, rid: nat): History {
    if rid < |h.calls| then h.(calls := h.calls[rid := h.calls[rid].(uses := h.calls[rid].uses + 1)]) else h
  }

  /** Request `rid` returns to its caller. */
  function Answered(h: History, rid: nat, answer: Answer): History {
    if rid < |h.calls| then h.(calls := h.calls[rid := h.calls[rid].(ret := Some(Ret(answer, |h.log|)))]) else h
  }

  /** The closure of request `rid` has ended with `out`. */
  function Logged(h: History, rid: nat, task: Task, out: Outcome): History {
    h.(log := h.log + [Run(rid, task, out)],
       calls := if rid < |h.calls| then h.calls[rid := h.calls[rid].(run := Some(|h.log|))] else h.calls)
  }

  // ---------- try_run ----------

  function DoCall(s: State, t: nat, task: Task): State
    requires t < |s.frames|
  {
    var h := s.h;
    s.(frames := s.frames[t := s.frames[t].(pc := PeekTail, task := task, rid := |h.calls|)],
       h := h.(calls := h.calls + [Request(task, t, |h.log|, None, 0, None)]))
  }

  function DoPeekTail(s: State, t: nat): State
    requires t < |s.frames|
  {
    if s.raw.tail.None? then Goto(s, t, FastLock)
    else s.(frames := s.frames[t := MakeNode(s.frames[t])])
  }

  function DoFastLock(s: State, t: nat): State
    requires t < |s.frames|
  {
    var (raw, got) := s.raw.TryAcquire(s.mode);
    match got
    case Acquired => Goto(s, t, Fast(FastBegin)).(raw := raw, h := s.h.(owner := Some(t)))
    case Busy => s.(frames := s.frames[t := MakeNode(s.frames[t])])
    case Refused => Goto(s, t, Idle).(h := Answered(Use(s.h, s.frames[t].rid), s.frames[t].rid, Denied))
  }

  function DoFastBegin(s: State, t: nat): State
    requires t < |s.frames|
  {
    Goto(s, t, Fast(FastRun(s.mem))).(h := Use(s.h, s.frames[t].rid))
  }

  function DoFastRun(s: State, t: nat, seen: Memory): State
    requires t < |s.frames|
  {
    var f := s.frames[t];
    var Effect(mem, out) := f.task(seen);
    Goto(s, t, Fast(FastDrop(out))).(mem := mem, h := Logged(s.h, f.rid, f.task, out))
  }

  /** `UnlockGuard::drop`, also when the closure panicked. */
  function DoFastDrop(s: State, t: nat, out: Outcome): State
    requires t < |s.frames|
  {
    Goto(s, t, Idle).(raw := s.raw.(status := Unlocked),
                      h := Answered(s.h, s.frames[t].rid, Got(out)).(owner := None))
  }

  // ---------- attach: joining and waiting ----------

  function DoEnqueue(s: State, t: nat): State
    requires t < |s.frames|
  {
    var (raw, found) := s.raw.SwapTail(t);
    var pc := if found.Some? then Link(found.value) else Acquire(false);
    s.(raw := raw,
       frames := s.frames[t := s.frames[t].(pc := pc, pos := |s.h.line|)],
       h := Lined(s.h, Entry(t, s.frames[t].rid, found.None?), Early(s)))
  }

  function Lined(h: History, e: Entry, early: set<nat>): History {
    if e.head then h.(line := h.line + [e], marks := h.marks + [Queued], openedAt := |h.log|, early := early)
    else h.(line := h.line + [e], marks := h.marks + [Fresh])
  }

  predicate IsEarly(pc: PC) {
    pc.FastLock? || (pc.Fast? && !pc.fast.FastDrop?)
  }

  /** Requests that are past the tail check of the fast path and have not finished their closure. */
  function Early(s: State): set<nat> {
    set t | 0 <= t < |s.frames| && IsEarly(s.frames[t].pc) ::
      s.frames[t].rid
  }

  function DoLink(s: State, t: nat, prev: nat): State
    requires t < |s.frames| && prev < |s.frames|
  {
    Goto(s.(frames := s.frames[prev := s.frames[prev].(next := Some(t))],
            h := s.h.(marks := Set(s.h.marks, s.frames[t].pos, Queued))), t, Wait(Spin(SPIN_LIMIT)))
  }

  /** What `attach` does with the word it has waited for. */
  function Observe(s: State, t: nat, word: Word): State
    requires t < |s.frames|
  {
    if word == Done then Goto(s, t, Return(Finished))
    else if s.mode == NoStd && word == Poisoned then Goto(s, t, Return(Cancelled))
    else Goto(s, t, Combine(t, Begin)).(h := Take(s.h, t))
  }

  function DoWait(s: State, t: nat, op: WaitOp): State
    requires t < |s.frames|
  {
    var word := s.frames[t].word;
    match op
    case Spin(left) =>
      if word != Waiting then Observe(s, t, word)
      else Goto(s, t, Wait(if left <= 1 then Park else Spin(left - 1)))
    case Park =>
      if word == Waiting then s.(frames := s.frames[t := s.frames[t].(pc := Wait(Recheck), word := Sleeping)])
      else Observe(s, t, word)
    case Recheck => Goto(s, t, Wait(if word == Sleeping then Syscall else Reload))
    // The kernel parks the thread only if the word still has the expected value.
    case Syscall => Goto(s, t, Wait(if word == Sleeping then Parked else Recheck))
    case Parked => s
    case Reload => Observe(s, t, word)
  }

  function DoAcquire(s: State, t: nat, spinning: bool): State
    requires t < |s.frames|
  {
    if spinning then
      if s.raw.status == Locked then s else Goto(s, t, Acquire(false))
    else
      var (raw, got) := s.raw.TryAcquire(s.mode);
      match got
      case Acquired => Goto(s, t, Combine(t, Begin)).(raw := raw, h := Take(s.h, t).(owner := Some(t)))
      case Busy => Goto(s, t, Acquire(true))
      case Refused => Goto(s, t, Bomb(t, Poison, Turned)).(h := Take(s.h, t))
  }

  // ---------- notification ----------

  /** The swap of `notify`. */
  function Publish(s: State, n: nat, message: Word): State
    requires n < |s.frames|
  {
    s.(frames := s.frames[n := s.frames[n].(word := Swap(s.frames[n].word, message).0)])
  }

  predicate NeedsWake(s: State, n: nat, message: Word)
    requires n < |s.frames|
  {
    Swap(s.frames[n].word, message).1
  }

  /** FUTEX_WAKE on an address: it reads no memory, and unparks whoever is parked there now. */
  function Unpark(s: State, address: nat): State {
    if address < |s.frames| && s.frames[address].pc == Wait(Parked) then Goto(s, address, Wait(Recheck)) else s
  }

  /** The node at place `pos` has been woken for the last time. */
  function Settle(h: History, pos: nat, message: Word): History {
    h.(marks := Set(h.marks, pos, Settled(message)))
  }

  /** The cursor is sent its last message, and the thread's next cursor is the successor. */
  function Pass(s: State, t: nat, c: nat, message: Word, pc: PC): State
    requires t < |s.frames| && c < |s.frames|
  {
    Goto(Publish(s, c, message), t, pc).(h := Take(Settle(s.h, s.frames[c].pos, message), t))
  }

  /** The open chain has been closed. */
  function Shut(s: State, t: nat, c: nat, pc: PC): State
    requires t < |s.frames|
  {
    Goto(s, t, pc).(raw := s.raw.TryClose(c).0, h := s.h.(start := |s.h.line|))
  }

  // ---------- attach: combining ----------

  /** `execute`: the closure is moved out of the node at `c` and starts on the data. */
  function DoBegin(s: State, t: nat, c: nat): State
    requires t < |s.frames| && c < |s.frames|
  {
    Goto(s.(frames := s.frames[c := s.frames[c].(full := false, started := s.mode == NoStd)],
            h := Use(s.h, s.frames[c].rid)), t, Combine(c, Execute(s.mem)))
  }

  /** `execute`: the closure ends; `panic::catch` keeps a panic from unwinding only with `std`. */
  function DoExecute(s: State, t: nat, c: nat, seen: Memory): State
    requires t < |s.frames| && c < |s.frames|
  {
    var f := s.frames[c];
    var Effect(mem, out) := f.task(seen);
    var h := Logged(s.h, f.rid, f.task, out).(done := s.h.done + 1);
    if s.mode == NoStd && out.Panicked? then
      Goto(s, t, Bomb(c, Poison, Unwinding)).(mem := mem, h := h)
    else
      Goto(s.(frames := s.frames[c := f.(result := Some(out))], mem := mem, h := h), t, Combine(c, LoadNext))
  }

  function DoAdvance(s: State, t: nat, c: nat, n: nat): State
    requires t < |s.frames| && c < |s.frames|
  {
    Pass(s, t, c, Done, Combine(n, if NeedsWake(s, c, Done) then WakePrev(c) else Begin))
  }

  function DoClose(s: State, t: nat, c: nat): State
    requires t < |s.frames|
  {
    if s.raw.TryClose(c).1 then Shut(s, t, c, Last(c, Release))
    else Goto(s, t, Combine(c, HandOff))
  }

  function DoPromote(s: State, t: nat, c: nat, n: nat): State
    requires t < |s.frames| && n < |s.frames|
  {
    var pc := if NeedsWake(s, n, Head) then Bow(c, n) else Last(c, Leave);
    Goto(Publish(s, n, Head), t, pc).(h := s.h.(owner := Some(n)))
  }

  function DoCombine(s: State, t: nat, c: nat, op: CombineOp): State
    requires t < |s.frames| && c < |s.frames|
    requires op.Promote? ==> op.heir < |s.frames|
  {
    match op
    case WakePrev(address) => Goto(Unpark(s, address), t, Combine(c, Begin))
    case Begin => DoBegin(s, t, c)
    case Execute(seen) => DoExecute(s, t, c, seen)
    case LoadNext => Goto(s, t, Combine(c, if s.frames[c].next.Some? then Advance(s.frames[c].next.value) else Close))
    case Advance(n) => DoAdvance(s, t, c, n)
    case Close => DoClose(s, t, c)
    case HandOff => if s.frames[c].next.Some? then Goto(s, t, Combine(c, Promote(s.frames[c].next.value))) else s
    case Promote(n) => DoPromote(s, t, c, n)
  }

  function DoBow(s: State, t: nat, c: nat, address: nat): State
    requires t < |s.frames|
  {
    Goto(Unpark(s, address), t, Last(c, Leave))
  }

  function After(end: End): PC {
    match end
    case Release => Unlock
    case Leave => Return(Finished)
    case Finish(Unwinding) => Return(Unwound)
    case Finish(Turned) => Return(Cancelled)
  }

  function Message(end: End): Word {
    if end.Finish? then Poisoned else Done
  }

  function DoLast(s: State, t: nat, c: nat, end: End): State
    requires t < |s.frames| && c < |s.frames|
  {
    var pc := if NeedsWake(s, c, Message(end)) then LastWake(c, end) else After(end);
    Goto(Publish(s, c, Message(end)), t, pc).(h := Settle(s.h, s.frames[c].pos, Message(end)))
  }

  function DoLastWake(s: State, t: nat, address: nat, end: End): State
    requires t < |s.frames|
  {
    Goto(Unpark(s, address), t, After(end))
  }

  function DoUnlock(s: State, t: nat): State
    requires t < |s.frames|
  {
    Goto(s, t, Return(Finished)).(raw := s.raw.(status := Unlocked), h := s.h.(owner := None))
  }

  // ---------- Bomb::drop ----------

  function DoBombClose(s: State, t: nat, a: nat, why: Why): State
    requires t < |s.frames|
  {
    if s.raw.TryClose(a).1 then Shut(s, t, a, Last(a, Finish(why)))
    else Goto(s, t, Bomb(a, BombSpin, why))
  }

  function DoBombAdvance(s: State, t: nat, a: nat, n: nat, why: Why): State
    requires t < |s.frames| && a < |s.frames|
  {
    Pass(s, t, a, Poisoned, Bomb(n, if NeedsWake(s, a, Poisoned) then BombWake(a) else BombNext, why))
  }

  function DoBomb(s: State, t: nat, a: nat, op: BombOp, why: Why): State
    requires t < |s.frames| && a < |s.frames|
  {
    match op
    case Poison => Goto(s, t, Bomb(a, BombNext, why)).(raw := s.raw.(status := Dead), h := s.h.(owner := None))
    case BombWake(address) => Goto(Unpark(s, address), t, Bomb(a, BombNext, why))
    case BombNext => Goto(s, t,
        Bomb(a, if s.frames[a].next.Some? then BombAdvance(s.frames[a].next.value) else BombClose, why))
    case BombAdvance(n) => DoBombAdvance(s, t, a, n, why)
    case BombClose => DoBombClose(s, t, a, why)
    case BombSpin => if s.frames[a].next.None? then s else Goto(s, t, Bomb(a, BombNext, why))
  }

  // ---------- return ----------

  function DoReturn(s: State, t: nat, verdict: Verdict): State
    requires t < |s.frames|
  {
    var f := s.frames[t];
    Goto(s, t, Idle).(
      h := match verdict
           case Finished => Answered(s.h, f.rid, if f.result.Some? then Got(f.result.value) else Garbage)
           case Cancelled => Answered(if f.started then s.h else Use(s.h, f.rid), f.rid, Denied)
           case Unwound => Answered(s.h, f.rid, Crashed))
  }

  /** The slots whose node the next step reads or writes, besides the thread's own. */
  function Touches(pc: PC): set<nat> {
    match pc
    case Link(prev) => {prev}
    case Combine(_, WakePrev(_)) => {}
    case Combine(_, Close) => {}
    case Combine(_, Promote(n)) => {n}
    case Combine(c, _) => {c}
    case Last(c, _) => {c}
    case Bomb(_, Poison, _) => {}
    case Bomb(_, BombWake(_), _) => {}
    case Bomb(_, BombClose, _) => {}
    case Bomb(a, _, _) => {a}
    case _ => {}
  }

  ghost predicate Enabled(s: State, a: Action) {
    a.slot < |s.frames| &&
    match a
    case Call(t, _) => s.frames[t].pc.Idle?
    case Step(t) => !s.frames[t].pc.Idle? && s.frames[t].pc != Wait(Parked)
    case Spurious(t) => s.frames[t].pc == Wait(Parked)
  }

  /** One step of one thread; a thread whose pointers lead nowhere stays where it is. */
  ghost function Next(s: State, a: Action): State
    requires a.slot < |s.frames|
  {
    match a
    case Call(t, task) => DoCall(s, t, task)
    case Spurious(t) => Goto(s, t, Wait(Recheck))
    case Step(t) =>
      match s.frames[t].pc
      case Idle => s
      case PeekTail => DoPeekTail(s, t)
      case FastLock => DoFastLock(s, t)
      case Fast(FastBegin) => DoFastBegin(s, t)
      case Fast(FastRun(seen)) => DoFastRun(s, t, seen)
      case Fast(FastDrop(out)) => DoFastDrop(s, t, out)
      case Enqueue => DoEnqueue(s, t)
      case Link(prev) => if prev < |s.frames| then DoLink(s, t, prev) else s
      case Wait(op) => DoWait(s, t, op)
      case Acquire(spinning) => DoAcquire(s, t, spinning)
      case Combine(c, op) =>
        if c < |s.frames| && (op.Promote? ==> op.heir < |s.frames|) then DoCombine(s, t, c, op) else s
      case Bow(c, address) => DoBow(s, t, c, address)
      case Last(c, end) => if c < |s.frames| then DoLast(s, t, c, end) else s
      case LastWake(address, end) => DoLastWake(s, t, address, end)
      case Unlock => DoUnlock(s, t)
      case Bomb(a, op, why) => if a < |s.frames| then DoBomb(s, t, a, op, why) else s
      case Return(verdict) => DoReturn(s, t, verdict)
  }

  /** `Lock::new`, seen from `n` free stack slots. */
  ghost predicate Initial(s: State) {
    && s.raw == Raw(Unlocked, None)
    && s.mem == s.h.init
    && (forall t | 0 <= t < |s.frames| :: s.frames[t].pc.Idle?)
    && s.h.calls == [] && s.h.log == [] && s.h.line == [] && s.h.marks == []
    && s.h.start == s.h.front == s.h.done == s.h.openedAt == 0
    && s.h.owner.None? && s.h.early == {}
  }
}
