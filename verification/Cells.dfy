/**
 * The lock's objects, updated in place. Each atomic operation is the step function of the same
 * name; the two loops over the queue are what one thread does when nobody joins meanwhile.
 */
module Cells {
  import opened Wrappers
  import opened Tasks
  import opened Atomics
  import opened Machine
  import opened Invariant

  class RawLock {
    var status: Status
    var tail: Node?

    ghost function View(): Raw
      reads this
    {
      Raw(status, if tail == null then None else Some(tail.address))
    }

    constructor ()
      ensures View() == Raw(Unlocked, None)
    {
      status, tail := Unlocked, null;
    }

    method HasTail() returns (has: bool)
      ensures has <==> View().tail.Some?
    {
      has := tail != null;
    }

    method SwapTail(node: Node) returns (found: Node?)
      modifies this
      ensures found == old(tail) && tail == node
      ensures (View(), if found == null then None else Some(found.address)) == old(View()).SwapTail(node.address)
    {
      found := tail;
      tail := node;
    }

    /** Two nodes that exist at the same time have different addresses. */
    method TryClose(expected: Node) returns (closed: bool)
      modifies this
      ensures closed <==> old(tail) == expected
      ensures tail == (if closed then null else old(tail)) && status == old(status)
      ensures (old(tail) != null && old(tail).address == expected.address ==> old(tail) == expected) ==>
                (View(), closed) == old(View()).TryClose(expected.address)
    {
      closed := tail == expected;
      if closed { tail := null; }
    }

    method TryAcquire(mode: Mode) returns (got: Try)
      modifies this
      ensures (View(), got) == old(View()).TryAcquire(mode)
    {
      if status == Unlocked {
        status := Locked;
        return Acquired;
      }
      got := if mode == NoStd && status == Dead then Refused else Busy;
    }

    method Poison()
      modifies this
      ensures View() == old(View()).(status := Dead) && tail == old(tail)
    {
      status := Dead;
    }

    method Release()
      modifies this
      ensures View() == old(View()).(status := Unlocked) && tail == old(tail)
    {
      status := Unlocked;
    }
  }

  /** The protected memory. */
  class Data {
    var mem: Memory

    constructor (mem: Memory)
      ensures this.mem == mem
    {
      this.mem := mem;
    }
  }

  /** The first message that comes in comes in at `k`. */
  ghost predicate First(incoming: seq<Option<Word>>, k: int) {
    0 <= k < |incoming| && incoming[k].Some? && forall j | 0 <= j < k :: incoming[j] == None
  }

  /** A stack node with its closure slot. */
  class Node {
    ghost const address: nat
    const task: Task
    var word: Word
    var next: Node?
    var full: bool
    var started: bool
    var result: Option<Outcome>

    constructor (ghost address: nat, task: Task)
      ensures this.address == address && this.task == task
      ensures word == Waiting && next == null && full && !started && result == None
    {
      this.address, this.task := address, task;
      word, next, full, started, result := Waiting, null, true, false, None;
    }

    /** The swap of `Futex::notify`; the caller makes the kernel wake if it is told to. */
    method Notify(message: Word) returns (wake: bool)
      modifies this`word
      ensures (word, wake) == Swap(old(word), message)
    {
      wake := word == Sleeping;
      word := message;
    }

    /** The compare-exchange of `Node::wait`: nothing, or the message that was there first. */
    method FallAsleep() returns (seen: Option<Word>)
      modifies this`word
      ensures old(word) == Waiting ==> word == Sleeping && seen == None
      ensures old(word) != Waiting ==> word == old(word) && seen == Some(word)
    {
      if word == Waiting {
        word := Sleeping;
        return None;
      }
      return Some(word);
    }

    /**
     * How `attach` waits before it asks the kernel: some looks at the word, then the compare-exchange.
     * `incoming` has what another thread publishes before each look, and before the exchange. The
     * first message is the one that is seen, nobody has to be woken for it, and the thread goes to
     * sleep only if there is none.
     */
    method Look(incoming: seq<Option<Word>>) returns (seen: Option<Word>)
      requires |incoming| == SPIN_LIMIT + 1
      requires forall m | m in incoming && m.Some? :: m.value != Waiting && m.value != Sleeping
      modifies this`word
      ensures old(word) != Waiting ==> word == old(word) && seen == Some(word)
      ensures old(word) == Waiting ==> (seen == None <==> forall m | m in incoming :: m == None)
      ensures old(word) == Waiting && seen.Some? ==>
                word == seen.value && exists k :: First(incoming, k) && incoming[k] == seen
      ensures seen == None ==> word == Sleeping
    {
      for i := 0 to SPIN_LIMIT
        invariant word == old(word) && (word == Waiting ==> forall j | 0 <= j < i :: incoming[j] == None)
      {
        Arrive(incoming[i]);
        if word != Waiting {
          assert old(word) == Waiting ==> First(incoming, i);
          return Some(word);
        }
      }
      Arrive(incoming[SPIN_LIMIT]);
      assert incoming[SPIN_LIMIT].Some? && old(word) == Waiting ==> First(incoming, SPIN_LIMIT);
      seen := FallAsleep();
    }

    /** Another thread notifies the node, unless it has its message already. */
    method Arrive(message: Option<Word>)
      modifies this`word
      ensures word == if old(word) == Waiting && message.Some? then message.value else old(word)
    {
      if word == Waiting && message.Some? {
        var wake := Notify(message.value);
        assert !wake;
      }
    }

    method StoreNext(node: Node)
      modifies this`next
      ensures next == node
    {
      next := node;
    }

    method LoadNext() returns (link: Node?)
      ensures link == next
    {
      link := next;
    }

    /** `execute`: moves the closure out and runs it; without `std`, a panic leaves no result. */
    method Execute(mode: Mode, data: Data) returns (unwinds: bool)
      requires full
      modifies this`full, this`started, this`result, data
      ensures var Effect(mem, out) := task(old(data.mem));
              && data.mem == mem
              && unwinds == (mode == NoStd && out == Panicked)
              && result == if unwinds then old(result) else Some(out)
      ensures !full && started == (old(started) || mode == NoStd)
    {
      if mode == NoStd { started := true; }
      full := false;
      var Effect(mem, out) := task(data.mem);
      data.mem := mem;
      unwinds := mode == NoStd && out == Panicked;
      if !unwinds { result := Some(out); }
    }
  }

  // ---------- the fast path ----------

  /**
   * `try_run` without the slow path: the closure runs at once if the queue is empty and the lock is
   * free, which it is again afterwards, also when the closure panics. Without an answer, the
   * request has to queue, and nothing has happened.
   */
  method TryRun(mode: Mode, raw: RawLock, data: Data, task: Task) returns (answer: Option<Answer>)
    modifies raw, data
    ensures raw.View() == old(raw.View())
    ensures old(raw.View()) == Raw(Unlocked, None) ==>
              Effect(data.mem, task(old(data.mem)).out) == task(old(data.mem))
              && answer == Some(Got(task(old(data.mem)).out))
    ensures old(raw.View()) != Raw(Unlocked, None) ==>
              && data.mem == old(data.mem)
              && answer == if old(raw.View()) == Raw(Dead, None) && mode == NoStd then Some(Denied) else None
  {
    var has := raw.HasTail();
    if has { return None; }
    var got := raw.TryAcquire(mode);
    if got == Refused { return Some(Denied); }
    if got == Busy { return None; }
    var Effect(mem, out) := task(data.mem);
    data.mem := mem;
    raw.Release();
    return Some(Got(out));
  }

  // ---------- a queue that nobody joins ----------

  /** A linked chain of different nodes. */
  ghost predicate Linked(line: seq<Node>)
    reads line`next
  {
    && (forall i, j | 0 <= i < j < |line| :: line[i] != line[j])
    && (forall i | 0 <= i < |line| :: line[i].next == NextInLine(line, i))
  }

  function NextInLine(line: seq<Node>, i: nat): Node?
    requires i < |line|
  {
    if i + 1 < |line| then line[i + 1] else null
  }

  /** Joining the queue: the node becomes the tail, and is linked to its predecessor if it has one. */
  method Join(raw: RawLock, node: Node, ghost line: seq<Node>) returns (head: bool)
    requires Linked(line) && node !in line && node.next == null
    requires raw.tail == if line == [] then null else line[|line| - 1]
    modifies raw, line`next
    ensures head <==> line == []
    ensures Linked(line + [node]) && raw.tail == node && raw.status == old(raw.status)
  {
    var prev := raw.SwapTail(node);
    head := prev == null;
    if prev != null { prev.StoreNext(node); }
    ghost var now := line + [node];
    forall i: nat | i < |now| ensures now[i].next == NextInLine(now, i) {
      assert i < |line| ==> now[i] == line[i];
    }
  }

  /**
   * `Bomb::drop`: the lock is dead, and every node from the failing one, at place `k`, to the tail
   * has been told so; `woken` are those that sleep. The loop for a missing link is left out: nobody
   * joins.
   */
  method DropBomb(raw: RawLock, first: Node, ghost line: seq<Node>, ghost k: nat) returns (woken: seq<Node>)
    requires Linked(line) && k < |line| && first == line[k] && raw.tail == line[|line| - 1]
    modifies raw, line`word
    ensures raw.status == Dead && raw.tail == null
    ensures forall i | 0 <= i < |line| :: line[i].word == if i < k then old(line[i].word) else Poisoned
    ensures forall i | k <= i < |line| :: line[i] in woken <==> old(line[i].word) == Sleeping
  {
    hide Linked, NextInLine;
    LinkAt(line, |line| - 1);
    raw.Poison();
    woken := [];
    var atom := first;
    ghost var i := k;
    while true
      invariant k <= i < |line| && atom == line[i] && Linked(line) && raw.tail == line[|line| - 1] && raw.status == Dead
      invariant forall j | 0 <= j < |line| :: line[j].word == if k <= j < i then Poisoned else old(line[j].word)
      invariant forall j | k <= j < |line| :: line[j] in woken <==> j < i && old(line[j].word) == Sleeping
      decreases |line| - i
    {
      LinkAt(line, i);
      var next := atom.LoadNext();
      if next == null {
        var closed := raw.TryClose(atom);
        var wake := atom.Notify(Poisoned);
        if wake { woken := woken + [atom]; }
        break;
      }
      var wake := atom.Notify(Poisoned);
      if wake { woken := woken + [atom]; }
      atom := next;
      i := i + 1;
    }
  }

  lemma LinkAt(line: seq<Node>, i: nat)
    requires Linked(line) && i < |line|
    ensures line[i].next == if i + 1 < |line| then line[i + 1] else null
    ensures forall j | 0 <= j < |line| && j != i :: line[j] != line[i]
  {
  }

  /** The first `n` nodes hold their outcomes and have been told DONE. */
  ghost predicate Served(line: seq<Node>, log: seq<Run>, n: nat)
    requires n <= |line| && n <= |log|
    reads line
  {
    forall i | 0 <= i < n :: line[i].word == Done && line[i].result == Some(log[i].out)
  }

  /** The log of the closures of `line`, run one after the other. */
  ghost predicate Logs(init: Memory, line: seq<Node>, log: seq<Run>) {
    |log| <= |line| && forall i: nat | i < |log| :: log[i].task == line[i].task && log[i].out == OutcomeAt(init, log, i)
  }

  /** The combining loop of `attach`; it ends at the node without a successor, or at a panic that unwinds. */
  method Serve(mode: Mode, data: Data, head: Node, ghost line: seq<Node>)
    returns (cursor: Node, unwinds: bool, ghost log: seq<Run>)
    requires line != [] && Linked(line) && head == line[0] && forall i | 0 <= i < |line| :: line[i].full
    modifies data, line`word, line`full, line`started, line`result
    ensures Logs(old(data.mem), line, log) && 0 < |log| <= |line| && cursor == line[|log| - 1]
    ensures data.mem == Replay(old(data.mem), log)
    ensures unwinds <==> mode == NoStd && log[|log| - 1].out == Panicked
    ensures !unwinds ==> |log| == |line| && cursor.result == Some(log[|log| - 1].out)
    ensures Served(line, log, |log| - 1)
    ensures forall i | 0 <= i < |line| :: line[i].full == (i >= |log|)
  {
    hide Replay, OutcomeAt, Logs, Linked;
    LinkAt(line, 0);
    cursor, unwinds, log := head, false, [];
    NoLogs(data.mem, line);
    ghost var i := 0;
    while true
      invariant 0 <= i < |line| && cursor == line[i] && Linked(line) && |log| == i && Logs(old(data.mem), line, log)
      invariant data.mem == Replay(old(data.mem), log)
      invariant Served(line, log, i)
      invariant forall j | 0 <= j < |line| :: line[j].full == (j >= i)
      decreases |line| - i
    {
      ghost var run := Run(i, cursor.task, cursor.task(data.mem).out);
      LogsMore(old(data.mem), line, log, run);
      log := log + [run];
      LinkAt(line, i);
      unwinds := cursor.Execute(mode, data);
      if unwinds { return; }
      var next := cursor.LoadNext();
      if next == null { return; }
      var wake := cursor.Notify(Done);
      cursor := next;
      i := i + 1;
    }
  }

  /**
   * `attach` from the moment its node heads the queue. If no closure unwinds, every node holds its
   * outcome and is told DONE, and the lock is free with an empty queue. Without `std`, a panic
   * ends it: that node and those after it are told POISONED, and the lock is dead.
   */
  method Lead(mode: Mode, raw: RawLock, data: Data, head: Node, ghost line: seq<Node>)
    returns (verdict: Verdict, ghost log: seq<Run>)
    requires line != [] && Linked(line) && head == line[0] && raw.tail == line[|line| - 1] && raw.status == Locked
    requires forall i | 0 <= i < |line| :: line[i].full
    modifies raw, data, line`word, line`full, line`started, line`result
    ensures Logs(old(data.mem), line, log) && 0 < |log| <= |line| && data.mem == Replay(old(data.mem), log)
    ensures raw.tail == null && raw.status == if verdict == Finished then Unlocked else Dead
    ensures verdict == if mode == NoStd && log[|log| - 1].out == Panicked then Unwound else Finished
    ensures verdict == Finished ==> |log| == |line| && Served(line, log, |line|)
    ensures verdict == Unwound ==>
            Served(line, log, |log| - 1) && forall i | |log| - 1 <= i < |line| :: line[i].word == Poisoned
    ensures forall i | 0 <= i < |line| :: line[i].full == (i >= |log|)
  {
    hide Replay, OutcomeAt, Logs, Linked;
    LinkAt(line, 0);
    var cursor, unwinds;
    cursor, unwinds, log := Serve(mode, data, head, line);
    ghost var k := |log| - 1;
    LinkAt(line, k);
    if unwinds {
      var woken := DropBomb(raw, cursor, line, k);
      return Unwound, log;
    }
    var closed := raw.TryClose(cursor);
    var wake := cursor.Notify(Done);
    raw.Release();
    return Finished, log;
  }

  lemma NoLogs(init: Memory, line: seq<Node>)
    ensures Logs(init, line, []) && Replay(init, []) == init
  {
  }

  lemma LogsMore(init: Memory, line: seq<Node>, log: seq<Run>, run: Run)
    requires Logs(init, line, log) && |log| < |line| && run.task == line[|log|].task
             && run.out == run.task(Replay(init, log)).out
    ensures Logs(init, line, log + [run])
    ensures Replay(init, log + [run]) == run.task(Replay(init, log)).mem
  {
    assert (log + [run])[..|log|] == log;
    forall j: nat | j < |log| ensures OutcomeAt(init, log + [run], j) == OutcomeAt(init, log, j) {
      assert (log + [run])[..j] == log[..j];
    }
  }
}
