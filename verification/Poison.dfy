/** The poisonable lock: its three operations as tasks, and what its flag records. */
module Poison {
  import opened Tasks
  import opened Machine
  import opened Invariant
  import opened Theorems

  /** How a caller's closure ends. */
  datatype Body<+R> = Finish(value: R) | Panic

  type Closure = User -> (User, Body<Value>)
  type Recovery = User -> (User, Body<bool>)

  datatype Operation = Run(f: Closure) | Poison | TryUnpoison(g: Recovery)

  /** `run`: the flag is set while the closure runs, and stays set if it unwinds. */
  function RunOn(f: Closure, m: Memory): Effect {
    if m.poisoned then Effect(m, Returned(Rejected))
    else
      var (user, body) := f(m.user);
      match body
      case Finish(value) => Effect(Memory(user, false), Returned(Reply.Value(value)))
      case Panic => Effect(Memory(user, true), Panicked)
  }

  /** `poison`. */
  function PoisonOn(m: Memory): Effect {
    if m.poisoned then Effect(m, Returned(Rejected)) else Effect(m.(poisoned := true), Returned(Unit))
  }

  /** `try_unpoison`: the flag is cleared only if the recovery answers `true`. */
  function UnpoisonOn(g: Recovery, m: Memory): Effect {
    if !m.poisoned then Effect(m, Returned(Answer(false)))
    else
      var (user, body) := g(m.user);
      match body
      case Finish(cleared) => Effect(Memory(user, !cleared), Returned(Answer(cleared)))
      case Panic => Effect(Memory(user, true), Panicked)
  }

  /** The closure that the operation submits to the lock underneath. */
  function Program(op: Operation): Task {
    match op
    case Run(f) => m => RunOn(f, m)
    case Poison => m => PoisonOn(m)
    case TryUnpoison(g) => m => UnpoisonOn(g, m)
  }

  /** `poison::Lock`, inside the lock: the flag is stored and loaded around the caller's closure. */
  class Lock {
    var user: User
    var poisoned: bool

    function View(): Memory
      reads this
    {
      Memory(user, poisoned)
    }

    constructor (user: User)
      ensures View() == Memory(user, false)
    {
      this.user, poisoned := user, false;
    }

    method Poison() returns (out: Outcome)
      modifies this
      ensures Effect(View(), out) == Program(Operation.Poison)(old(View()))
    {
      if poisoned { return Returned(Rejected); }
      poisoned := true;
      return Returned(Unit);
    }

    method TryUnpoison(g: Recovery) returns (out: Outcome)
      modifies this
      ensures Effect(View(), out) == Program(Operation.TryUnpoison(g))(old(View()))
    {
      if !poisoned { return Returned(Answer(false)); }
      var (user', body) := g(user);
      user := user';
      if body.Panic? { return Panicked; }
      if !body.value { return Returned(Answer(false)); }
      poisoned := false;
      return Returned(Answer(true));
    }

    /** The flag is left set if the closure unwinds. */
    method Run(f: Closure) returns (out: Outcome)
      modifies this
      ensures Effect(View(), out) == Program(Operation.Run(f))(old(View()))
    {
      if poisoned { return Returned(Rejected); }
      poisoned := true;
      var (user', body) := f(user);
      user := user';
      if body.Panic? { return Panicked; }
      poisoned := false;
      return Returned(Reply.Value(body.value));
    }
  }

  // ---------- the flag as a history ----------

  /** The serialized tasks are those of `ops`. */
  ghost predicate Serves(log: seq<Machine.Run>, ops: seq<Operation>) {
    |log| == |ops| && forall k | 0 <= k < |ops| :: log[k].task == Program(ops[k])
  }

  /** The task panicked, or it was a `poison` that succeeded. */
  predicate Strikes(out: Outcome) {
    out == Panicked || out == Returned(Unit)
  }

  predicate Heals(out: Outcome) {
    out == Returned(Answer(true))
  }

  /** Some task before `k` poisoned the lock, and no recovery has cleared it since. */
  ghost predicate Struck(init: Memory, log: seq<Machine.Run>, k: nat)
    requires k <= |log|
  {
    exists j: nat ::
      j < k && Strikes(OutcomeAt(init, log, j)) && forall l: nat | j < l < k :: !Heals(OutcomeAt(init, log, l))
  }

  /** What one task does to the flag. */
  lemma OneTask(op: Operation, m: Memory)
    ensures var Effect(m', out) := Program(op)(m);
            && m'.poisoned == (Strikes(out) || (m.poisoned && !Heals(out)))
            && (m.poisoned && !op.TryUnpoison? ==> m' == m && out == Returned(Rejected))
            && (m.poisoned && op.TryUnpoison? ==>
                  && m'.user == op.g(m.user).0
                  && out == (match op.g(m.user).1 case Finish(b) => Returned(Answer(b)) case Panic => Panicked))
            && (!m.poisoned && op.TryUnpoison? ==> m' == m && out == Returned(Answer(false)))
            && (!m.poisoned && op.Run? ==>
                  && m'.user == op.f(m.user).0
                  && out == (match op.f(m.user).1 case Finish(v) => Returned(Reply.Value(v)) case Panic => Panicked))
            && (!m.poisoned && op.Poison? ==> m'.user == m.user && out == Returned(Unit))
            && (Heals(out) ==> m.poisoned && op.TryUnpoison? && op.g(m.user).1 == Body.Finish(true))
  {
  }

  lemma ReplayStep(init: Memory, log: seq<Machine.Run>, k: nat)
    requires k < |log|
    ensures Replay(init, log[..k + 1]) == log[k].task(Replay(init, log[..k])).mem
  {
    assert log[..k + 1][..k] == log[..k];
  }

  /** At every task boundary, the flag is set exactly when the history says so. */
  lemma {:induction false} FlagHistory(init: Memory, log: seq<Machine.Run>, ops: seq<Operation>, k: nat)
    requires Serves(log, ops) && k <= |log| && !init.poisoned
    ensures Replay(init, log[..k]).poisoned <==> Struck(init, log, k)
  {
    hide OutcomeAt, Strikes, Heals;
    if k == 0 {
      assert log[..0] == [];
    } else {
      FlagHistory(init, log, ops, k - 1);
      OneStep(init, log, ops, k - 1);
      StruckStep(init, log, k - 1);
    }
  }

  lemma StruckStep(init: Memory, log: seq<Machine.Run>, k: nat)
    requires k < |log|
    ensures Struck(init, log, k + 1) <==>
            Strikes(OutcomeAt(init, log, k)) || (Struck(init, log, k) && !Heals(OutcomeAt(init, log, k)))
  {
    hide OutcomeAt, Strikes, Heals;
    if Strikes(OutcomeAt(init, log, k)) {
      assert Struck(init, log, k + 1);
    } else if Struck(init, log, k + 1) {
      var j: nat :|
        j < k + 1 && Strikes(OutcomeAt(init, log, j))
        && forall l: nat | j < l < k + 1 :: !Heals(OutcomeAt(init, log, l));
      assert j < k;
      assert Struck(init, log, k);
    } else if Struck(init, log, k) {
      var j: nat :|
        j < k && Strikes(OutcomeAt(init, log, j)) && forall l: nat | j < l < k :: !Heals(OutcomeAt(init, log, l));
      assert !(forall l: nat | j < l < k + 1 :: !Heals(OutcomeAt(init, log, l)));
    }
  }

  lemma OneStep(init: Memory, log: seq<Machine.Run>, ops: seq<Operation>, k: nat)
    requires Serves(log, ops) && k < |log|
    ensures var out := OutcomeAt(init, log, k);
            Replay(init, log[..k + 1]).poisoned == (Strikes(out) || (Replay(init, log[..k]).poisoned && !Heals(out)))
  {
    ReplayStep(init, log, k);
    OneTask(ops[k], Replay(init, log[..k]));
  }

  /**
   * While the flag is set, no closure of `run` is invoked, since none could make a difference, and
   * what the closure of a recovery does is all that happens to the data.
   */
  lemma WhilePoisoned(init: Memory, log: seq<Machine.Run>, ops: seq<Operation>, k: nat)
    requires Serves(log, ops) && k < |log| && Replay(init, log[..k]).poisoned
    ensures var m, m' := Replay(init, log[..k]), Replay(init, log[..k + 1]);
            && (ops[k].TryUnpoison? ==> m'.user == ops[k].g(m.user).0)
            && (!ops[k].TryUnpoison? ==> m' == m && OutcomeAt(init, log, k) == Returned(Rejected))
            && (forall f :: Program(Operation.Run(f))(m) == Effect(m, Returned(Rejected)))
  {
    ReplayStep(init, log, k);
    OneTask(ops[k], Replay(init, log[..k]));
  }

  /** From a panic on, everything but a recovery is rejected until a recovery answers `true`. */
  lemma {:induction false} RejectedUntilRecovered(init: Memory, log: seq<Machine.Run>, ops: seq<Operation>,
                                                 j: nat, k: nat)
    requires Serves(log, ops) && j < k < |log| && Strikes(OutcomeAt(init, log, j))
    requires forall l | j < l < k :: !Heals(OutcomeAt(init, log, l))
    ensures Replay(init, log[..k]).poisoned
    ensures !ops[k].TryUnpoison? ==>
            OutcomeAt(init, log, k) == Returned(Rejected) && Replay(init, log[..k + 1]) == Replay(init, log[..k])
    decreases k
  {
    if k == j + 1 { OneStep(init, log, ops, j); } else {
      RejectedUntilRecovered(init, log, ops, j, k - 1);
      OneStep(init, log, ops, k - 1);
    }
    WhilePoisoned(init, log, ops, k);
  }

  /**
   * The poison history of every run of the lock, however its requests interleave: the flag is set
   * now exactly when some executed task panicked or poisoned the lock and no later recovery
   * answered `true`; and a request that was told so ran while the flag was set, or never.
   */
  lemma PoisonHistory(states: seq<State>, actions: seq<Action>, k: nat, ops: seq<Operation>)
    requires IsRun(states, actions) && k < |states|
    requires Serves(states[k].h.log, ops) && !states[0].mem.poisoned
    ensures states[k].mem.poisoned <==> Struck(states[0].mem, states[k].h.log, |states[k].h.log|)
    ensures forall r: nat | r < |states[k].h.calls| && states[k].h.calls[r].ret.Some? && states[k].h.calls[r].run.Some?
                            && states[k].h.calls[r].ret.value.answer == Got(Returned(Rejected)) ::
              && states[k].h.calls[r].run.value < |ops|
              && !ops[states[k].h.calls[r].run.value].TryUnpoison?
              && Replay(states[0].mem, states[k].h.log[..states[k].h.calls[r].run.value]).poisoned
  {
    hide Good, Next, Inv, Struck, Replay;
    var s := states[k];
    RunGood(states, actions, k);
    InvOf(s);
    SequentialOk(s);
    RunKept(states, actions, 0, k);
    assert s.h.init == states[0].mem;
    FlagHistory(s.h.init, s.h.log, ops, |s.h.log|);
    assert s.h.log[..|s.h.log|] == s.h.log;
    forall r: nat | r < |s.h.calls| && s.h.calls[r].ret.Some? && s.h.calls[r].run.Some?
               && s.h.calls[r].ret.value.answer == Got(Returned(Rejected))
      ensures s.h.calls[r].run.value < |ops| && !ops[s.h.calls[r].run.value].TryUnpoison?
              && Replay(s.h.init, s.h.log[..s.h.calls[r].run.value]).poisoned
    {
      Linearizable(states, actions, k, r);
      var p := s.h.calls[r].run.value;
      OneTask(ops[p], Replay(s.h.init, s.h.log[..p]));
    }
  }
}
