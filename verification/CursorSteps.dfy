/**
 * The steps that a combiner or a bomb makes on its cursor keep the invariant: starting and ending
 * a closure, moving on to the successor, closing the tail, handing the lock over, the last
 * notification, and poisoning. Each step has a lemma for the thread itself, for the owner of the
 * cursor, for all other slots and for the places of the queue, and one that puts them together.
 */
module CursorSteps {
  import opened Wrappers
  import opened Tasks
  import opened Atomics
  import opened Machine
  import opened Invariant
  import opened Frames
  import opened Steps
  import opened OwnerSteps

  /** The node a thread looks after exists, and its place says so. */
  lemma CursorFacts(s: State, t: nat)
    requires Inv(s) && t < |s.frames| && Cursor(s.frames[t].pc).Some?
    ensures |s.h.marks| == |s.h.line| && InLine(s.frames[t])
    ensures CursorOk(s, t, Cursor(s.frames[t].pc).value)
    ensures s.h.line[s.frames[Cursor(s.frames[t].pc).value].pos].slot == Cursor(s.frames[t].pc).value
    ensures s.frames[t].rid < |s.h.calls| && s.frames[t].pos < |s.h.line|
  {
    var c := Cursor(s.frames[t].pc).value;
    assert SlotOk(s, t);
    assert SlotOk(s, c);
  }

  lemma CursorPlace(s: State, t: nat)
    requires Inv(s) && t < |s.frames| && Cursor(s.frames[t].pc).Some?
    ensures var c := Cursor(s.frames[t].pc).value;
            && c < |s.frames| && InLine(s.frames[c])
            && s.frames[c].pos < |s.h.marks| == |s.h.line| && s.h.marks[s.frames[c].pos] == Held(t)
            && (Drives(s.frames[t].pc) ==> s.h.start < s.h.front && s.frames[c].pos == s.h.front - 1)
  {
    hide Inv;
    CursorFacts(s, t);
  }

  lemma HeirWaits(s: State, u: nat)
    requires Inv(s) && u < |s.frames| && Heir(s.frames[u].pc).Some?
    ensures s.h.front < |s.h.marks| && s.h.marks[s.h.front].Queued?
  {
    hide Inv;
    assert RoleOk(s, u) by { Facts(s, u); }
    Core(s);
  }

  /** A node that another thread looks after belongs to a waiter. */
  lemma LookedAfter(s: State, t: nat)
    requires Inv(s) && t < |s.frames| && Cursor(s.frames[t].pc).Some? && Cursor(s.frames[t].pc).value != t
    ensures Cursor(s.frames[t].pc).value < |s.frames| && s.frames[Cursor(s.frames[t].pc).value].pc.Wait?
  {
    CursorFacts(s, t);
    assert WordOk(s, Cursor(s.frames[t].pc).value) by { assert SlotOk(s, Cursor(s.frames[t].pc).value); }
  }

  /** The request whose node a thread looks after. */
  lemma RequestFacts(s: State, c: nat)
    requires Inv(s) && c < |s.frames| && InLine(s.frames[c])
    ensures var r := s.frames[c].rid;
            && r < |s.h.calls| && RequestOk(s, r)
            && s.h.calls[r].slot == c && s.h.calls[r].ret.None? && s.h.calls[r].task == s.frames[c].task
  {
    assert SlotOk(s, c) && RequestOk(s, s.frames[c].rid);
  }

  /** The pointers of any thread are good. */
  ghost predicate Sound(s: State, u: nat)
    requires u < |s.frames|
  {
    var f := s.frames[u];
    && |s.h.marks| == |s.h.line|
    && (!f.pc.Idle? ==> f.rid < |s.h.calls|)
    && (InLine(f) ==> f.pos < |s.h.line|)
    && (Cursor(f.pc).Some? ==>
          var d := Cursor(f.pc).value;
          && d < |s.frames| && InLine(s.frames[d])
          && s.frames[d].pos < |s.h.marks| && s.h.marks[s.frames[d].pos] == Held(u))
  }

  lemma SoundOk(s: State, u: nat)
    requires Inv(s) && u < |s.frames|
    ensures Sound(s, u)
  {
    assert SlotOk(s, u);
  }

  /** Nobody else has anything to do with the node that a thread looks after. */
  lemma Apart(s: State, t: nat, u: nat)
    requires Inv(s) && t < |s.frames| && Cursor(s.frames[t].pc).Some? && u < |s.frames| && u != t
    requires u != Cursor(s.frames[t].pc).value
    ensures Sound(s, u) && Sound(s, t)
    ensures var c := Cursor(s.frames[t].pc).value;
            var f := s.frames[u];
            && (!f.pc.Idle? ==> f.rid != s.frames[c].rid && f.rid != s.frames[t].rid)
            && (InLine(f) ==> f.pos != s.frames[c].pos)
            && (Cursor(f.pc).Some? ==> Cursor(f.pc).value != c && s.frames[Cursor(f.pc).value].pos != s.frames[c].pos)
  {
    SoundOk(s, t);
    SoundOk(s, u);
    var c := Cursor(s.frames[t].pc).value;
    assert IdentityOk(s, c) && IdentityOk(s, u) && IdentityOk(s, t) by {
      assert SlotOk(s, c) && SlotOk(s, u) && SlotOk(s, t);
    }
  }

  /** The successor of a cursor is a waiter that knows nothing yet. */
  lemma SuccessorFacts(s: State, t: nat, n: nat)
    requires Inv(s) && t < |s.frames| && Heir(s.frames[t].pc) == Some(n)
    ensures |s.h.marks| == |s.h.line| && s.h.front < |s.h.line| && s.h.line[s.h.front].slot == n
    ensures n < |s.frames| && n != t && s.frames[n].pc.Wait? && s.frames[n].pos == s.h.front
            && s.h.marks[s.h.front].Queued?
    ensures s.frames[n].word == Waiting || s.frames[n].word == Sleeping
    ensures s.frames[n].full && s.frames[n].result.None?
    ensures forall u: nat | u < |s.frames| && u != n && InLine(s.frames[u]) :: s.frames[u].pos != s.h.front
  {
    assert SlotOk(s, t);
    assert PlaceOk(s, s.h.front);
    assert SlotOk(s, n);
    forall u: nat | u < |s.frames| && u != n && InLine(s.frames[u]) ensures s.frames[u].pos != s.h.front {
      assert SlotOk(s, u);
    }
  }

  /** A thread holds no place but that of its cursor. */
  lemma HeldByOne(s: State, t: nat, u: nat)
    requires Inv(s) && t < |s.frames| && u < |s.frames| && InLine(s.frames[u]) && Cursor(s.frames[t].pc) != Some(u)
    ensures s.frames[u].pos < |s.h.line| == |s.h.marks| && s.h.marks[s.frames[u].pos] != Held(t)
  {
    assert IdentityOk(s, u) by { assert SlotOk(s, u); }
    assert PlaceOk(s, s.frames[u].pos);
  }

  /** A bomb that has passed `poison` implies a poisoned lock; a combiner does not. */
  lemma Mood(s: State, t: nat)
    requires Inv(s) && t < |s.frames|
    ensures s.frames[t].pc.Combine? ==> s.h.owner == Some(t) && s.raw.status == Locked
    ensures Reason(s.frames[t].pc).Some? ==> s.mode == NoStd && (s.raw.status == Dead || Owns(s.frames[t]))
    ensures Closing(s.frames[t].pc) ==> s.h.owner == Some(t) && s.raw.status == Locked
  {
    assert SlotOk(s, t);
  }

  /** The message that a thread is about to send to its cursor is the right one. */
  lemma RightMessage(s: State, t: nat)
    requires Inv(s) && t < |s.frames| && Cursor(s.frames[t].pc).Some?
    ensures var c := Cursor(s.frames[t].pc).value;
            && c < |s.frames| && s.frames[c].rid < |s.h.calls|
            && (Executed(s.frames[t].pc) ==> MessageOk(s, s.h.calls[s.frames[c].rid].run, Done))
            && (Reason(s.frames[t].pc).Some? ==> MessageOk(s, s.h.calls[s.frames[c].rid].run, Poisoned))
  {
    hide Inv;
    CursorFacts(s, t);
    Mood(s, t);
    Facts(s, Cursor(s.frames[t].pc).value);
  }

  // ---------- executing the cursor ----------

  lemma BeginOthers(s: State, t: nat, c: nat, u: nat)
    requires Inv(s) && t < |s.frames| && s.frames[t].pc == Combine(c, Begin) && u < |s.frames| && u != t && u != c
    ensures c < |s.frames| && |s.h.marks| == |s.h.line| && SlotOk(DoBegin(s, t, c), u)
  {
    hide Inv;
    Apart(s, t, u);
    OthersOk(s, DoBegin(s, t, c), t, u);
  }

  lemma BeginSelf(s: State, t: nat, c: nat)
    requires Inv(s) && t < |s.frames| && s.frames[t].pc == Combine(c, Begin)
    ensures c < |s.frames| && |s.h.marks| == |s.h.line| && SlotOk(DoBegin(s, t, c), t)
  {
    hide Inv;
    CursorFacts(s, t);
    Facts(s, t);
    if c != t { Identity(s, c, t); HeldByOne(s, t, t); }
  }

  lemma BeginCursor(s: State, t: nat, c: nat)
    requires Inv(s) && t < |s.frames| && s.frames[t].pc == Combine(c, Begin) && c != t
    ensures c < |s.frames| && |s.h.marks| == |s.h.line| && SlotOk(DoBegin(s, t, c), c)
  {
    hide Inv;
    CursorFacts(s, t);
    Facts(s, c);
  }

  lemma BeginPlaces(s: State, t: nat, c: nat, i: nat)
    requires Inv(s) && t < |s.frames| && s.frames[t].pc == Combine(c, Begin) && i < |s.h.line|
    ensures c < |s.frames| && |s.h.marks| == |s.h.line| && PlaceOk(DoBegin(s, t, c), i)
  {
    hide Inv;
    CursorFacts(s, t);
    Spot(s, i);
    PlaceCalmOk(s, DoBegin(s, t, c), i);
  }

  lemma BeginOk(s: State, t: nat, c: nat)
    requires Inv(s) && t < |s.frames| && s.frames[t].pc == Combine(c, Begin)
    ensures c < |s.frames| && Inv(DoBegin(s, t, c))
  {
    hide Inv, SlotOk;
    CursorFacts(s, t);
    RequestFacts(s, c);
    BeginSelf(s, t, c);
    if c != t { BeginCursor(s, t, c); }
    var s' := DoBegin(s, t, c);
    Core(s);
    RecordsOk(s, s', s.frames[c].rid);
    forall u: nat | u < |s.frames| ensures SlotOk(s', u) {
      if u != t && u != c { BeginOthers(s, t, c, u); }
    }
    forall i: nat | i < |s'.h.line| ensures PlaceOk(s', i) { BeginPlaces(s, t, c, i); }
    Assemble(s');
  }

  /** A combiner has run its own closure before any other. */
  lemma OwnRun(s: State, t: nat)
    requires Inv(s) && t < |s.frames| && s.frames[t].pc.Combine? && s.frames[t].pc.cursor != t
    ensures s.frames[t].rid < |s.h.calls| && s.h.calls[s.frames[t].rid].run.Some?
  {
    CursorFacts(s, t);
    assert SlotOk(s, t);
    assert PlaceOk(s, s.frames[t].pos);
  }

  /** The closure that is running has not been logged. */
  lemma Unlogged(s: State, t: nat, c: nat)
    requires Inv(s) && t < |s.frames| && s.frames[t].pc.Combine? && s.frames[t].pc.cursor == c
    requires Ready(s.frames[t].pc) || Executing(s.frames[t].pc)
    ensures c < |s.frames| && |s.h.marks| == |s.h.line| && s.frames[c].pos == s.h.front - 1 == s.h.done
    ensures s.frames[c].rid < |s.h.calls| && s.h.calls[s.frames[c].rid].run.None? && s.frames[c].result.None?
    ensures s.h.owner == Some(t) && s.raw.status == Locked
  {
    CursorFacts(s, t);
    assert SlotOk(s, t) && SlotOk(s, c);
    assert PlaceOk(s, s.frames[c].pos);
  }

  lemma ExecuteUntouched(s: State, t: nat, c: nat, seen: Memory, u: nat)
    requires Inv(s) && t < |s.frames| && s.frames[t].pc == Combine(c, Execute(seen)) && u < |s.frames|
             && u != t && u != c
    ensures c < |s.frames| && |s.h.marks| == |s.h.line| && Untouched(s, DoExecute(s, t, c, seen), u)
  {
    hide Inv, SlotOk;
    Apart(s, t, u);
    Unlogged(s, t, c);
    // The only node that `t` holds is its cursor.
    if InLine(s.frames[u]) { HeldByOne(s, t, u); }
  }

  lemma ExecuteOthers(s: State, t: nat, c: nat, seen: Memory, u: nat)
    requires Inv(s) && t < |s.frames| && s.frames[t].pc == Combine(c, Execute(seen)) && u < |s.frames|
             && u != t && u != c
    ensures c < |s.frames| && |s.h.marks| == |s.h.line| && SlotOk(DoExecute(s, t, c, seen), u)
  {
    hide Inv, SlotOk, Untouched;
    ExecuteUntouched(s, t, c, seen, u);
    OthersOk(s, DoExecute(s, t, c, seen), t, u);
  }

  lemma ExecuteCursor(s: State, t: nat, c: nat, seen: Memory)
    requires Inv(s) && t < |s.frames| && s.frames[t].pc == Combine(c, Execute(seen)) && c != t
    ensures c < |s.frames| && |s.h.marks| == |s.h.line| && SlotOk(DoExecute(s, t, c, seen), c)
  {
    hide Inv;
    CursorFacts(s, t);
    Unlogged(s, t, c);
    Facts(s, c);
  }

  lemma ExecuteSelf(s: State, t: nat, c: nat, seen: Memory)
    requires Inv(s) && t < |s.frames| && s.frames[t].pc == Combine(c, Execute(seen))
    ensures c < |s.frames| && |s.h.marks| == |s.h.line| && SlotOk(DoExecute(s, t, c, seen), t)
  {
    hide Inv, RequestOk, ClosureOk, WordOk;
    CursorFacts(s, t);
    Unlogged(s, t, c);
    RequestFacts(s, c);
    Facts(s, t);
    if c != t { OwnRun(s, t); }
    ExecuteSelfClosure(s, t, c, seen);
    ExecuteSelfWord(s, t, c, seen);
  }

  lemma ExecuteSelfWord(s: State, t: nat, c: nat, seen: Memory)
    requires Inv(s) && t < |s.frames| && s.frames[t].pc == Combine(c, Execute(seen))
    ensures c < |s.frames| && |s.h.marks| == |s.h.line| && WordOk(DoExecute(s, t, c, seen), t)
  {
    hide Inv, RequestOk, ClosureOk, RoleOk, CursorOk;
    CursorPlace(s, t);
    Mood(s, t);
    Facts(s, t);
  }

  lemma ExecuteSelfClosure(s: State, t: nat, c: nat, seen: Memory)
    requires Inv(s) && t < |s.frames| && s.frames[t].pc == Combine(c, Execute(seen))
    ensures c < |s.frames| && |s.h.marks| == |s.h.line| && ClosureOk(DoExecute(s, t, c, seen), t)
  {
    hide Inv, RequestOk, WordOk;
    CursorFacts(s, t);
    Unlogged(s, t, c);
    RequestFacts(s, c);
    Facts(s, t);
    if c != t { OwnRun(s, t); Identity(s, c, t); }
  }

  lemma ExecutePlaceOfCursor(s: State, t: nat, c: nat, seen: Memory)
    requires Inv(s) && t < |s.frames| && s.frames[t].pc == Combine(c, Execute(seen))
    ensures c < |s.frames| && s.frames[c].pos < |s.h.line| == |s.h.marks|
            && PlaceOk(DoExecute(s, t, c, seen), s.frames[c].pos)
  {
    hide Inv;
    CursorFacts(s, t);
    Unlogged(s, t, c);
    Spot(s, s.frames[c].pos);
  }

  lemma ExecutePlaces(s: State, t: nat, c: nat, seen: Memory, i: nat)
    requires Inv(s) && t < |s.frames| && s.frames[t].pc == Combine(c, Execute(seen)) && i < |s.h.line|
    requires c < |s.frames| && i != s.frames[c].pos
    ensures |s.h.marks| == |s.h.line| && PlaceOk(DoExecute(s, t, c, seen), i)
  {
    hide Inv, SlotOk, GlobalOk, RequestOk;
    SoundOk(s, t);
    Unlogged(s, t, c);
    Spot(s, i);
    if i > s.frames[c].pos { Identity(s, c, s.h.line[i].slot); }
    PlaceCalmOk(s, DoExecute(s, t, c, seen), i);
  }

  lemma ExecuteGlobal(s: State, t: nat, c: nat, seen: Memory)
    requires Inv(s) && t < |s.frames| && s.frames[t].pc == Combine(c, Execute(seen))
    ensures c < |s.frames| && GlobalOk(DoExecute(s, t, c, seen))
  {
    hide Inv, RequestOk, PlaceOk;
    CursorFacts(s, t);
    Unlogged(s, t, c);
    Core(s);
    Append(s.h.init, s.h.log, Run(s.frames[c].rid, s.frames[c].task, s.frames[c].task(seen).out));
  }

  lemma ExecuteRecords(s: State, t: nat, c: nat, seen: Memory)
    requires Inv(s) && t < |s.frames| && s.frames[t].pc == Combine(c, Execute(seen))
    ensures c < |s.frames| && |DoExecute(s, t, c, seen).h.calls| == |s.h.calls|
    ensures forall r: nat | r < |s.h.calls| :: RequestOk(DoExecute(s, t, c, seen), r)
    ensures forall k: nat | k <= |s.h.log| :: k < |DoExecute(s, t, c, seen).h.log| && LogOk(DoExecute(s, t, c, seen), k)
  {
    hide Inv, PlaceOk, GlobalOk;
    CursorFacts(s, t);
    Unlogged(s, t, c);
    RequestFacts(s, c);
    Core(s);
    LoggedOk(s, DoExecute(s, t, c, seen), s.frames[c].rid, s.frames[c].task);
  }

  lemma ExecuteOk(s: State, t: nat, c: nat, seen: Memory)
    requires Inv(s) && t < |s.frames| && s.frames[t].pc == Combine(c, Execute(seen))
    ensures c < |s.frames| && Inv(DoExecute(s, t, c, seen))
  {
    hide Inv, SlotOk, PlaceOk, GlobalOk, RequestOk, LogOk;
    CursorPlace(s, t);
    ExecuteGlobal(s, t, c, seen);
    ExecuteRecords(s, t, c, seen);
    ExecuteSelf(s, t, c, seen);
    if c != t { ExecuteCursor(s, t, c, seen); }
    var s' := DoExecute(s, t, c, seen);
    forall u: nat | u < |s.frames| ensures SlotOk(s', u) {
      if u != t && u != c { ExecuteOthers(s, t, c, seen, u); }
    }
    forall i: nat | i < |s'.h.line| ensures PlaceOk(s', i) {
      if i == s.frames[c].pos { ExecutePlaceOfCursor(s, t, c, seen); } else { ExecutePlaces(s, t, c, seen, i); }
    }
    Assemble(s');
  }

  // ---------- waking the cursor for good and going on to its successor ----------

  /** `DoAdvance` and `DoBombAdvance`: the thread sends its cursor `message` and goes on with `n`. */
  ghost predicate Passes(s: State, t: nat, n: nat, message: Word, pc: PC)
    requires t < |s.frames|
  {
    var f := s.frames[t];
    && Heir(f.pc) == Some(n) && Cursor(pc) == Some(n)
    && (|| (f.pc.Combine? && f.pc.op.Advance? && message == Done && Ready(pc))
        || (f.pc.Bomb? && message == Poisoned && pc.Bomb? && pc.why == f.pc.why
            && (pc.bomb.BombWake? || pc.bomb.BombNext?)))
  }

  /** The places of the cursor and of its successor change hands. */
  lemma PassEnds(s: State, t: nat, c: nat, n: nat, message: Word, pc: PC, i: nat)
    requires Inv(s) && t < |s.frames| && Cursor(s.frames[t].pc) == Some(c) && Passes(s, t, n, message, pc)
             && i < |s.h.line|
    requires c < |s.frames| && (i == s.h.front || i == s.frames[c].pos)
    ensures |s.h.marks| == |s.h.line| && PlaceOk(Pass(s, t, c, message, pc), i)
  {
    hide Inv, HeirOk;
    CursorFacts(s, t);
    SuccessorFacts(s, t, n);
    RightMessage(s, t);
    Spot(s, i);
  }

  lemma PassPlaces(s: State, t: nat, c: nat, n: nat, message: Word, pc: PC, i: nat)
    requires Inv(s) && t < |s.frames| && Cursor(s.frames[t].pc) == Some(c) && Passes(s, t, n, message, pc)
             && i < |s.h.line|
    requires c < |s.frames| && i != s.h.front && i != s.frames[c].pos
    ensures |s.h.marks| == |s.h.line| && PlaceOk(Pass(s, t, c, message, pc), i)
  {
    hide Inv, CursorOk;
    CursorPlace(s, t);
    CursorFacts(s, t);
    SuccessorFacts(s, t, n);
    Spot(s, i);
    PlaceCalmOk(s, Pass(s, t, c, message, pc), i);
  }

  lemma PassOthers(s: State, t: nat, c: nat, n: nat, message: Word, pc: PC, u: nat)
    requires Inv(s) && t < |s.frames| && Cursor(s.frames[t].pc) == Some(c) && Passes(s, t, n, message, pc)
    requires u < |s.frames| && u != t && u != c && u != n
    ensures c < |s.frames| && |s.h.marks| == |s.h.line| && SlotOk(Pass(s, t, c, message, pc), u)
  {
    hide Inv;
    Apart(s, t, u);
    SuccessorFacts(s, t, n);
    if s.frames[u].pc.Acquire? { RacerFacts(s, u); }
    OthersOk(s, Pass(s, t, c, message, pc), t, u);
  }

  lemma PassSuccessor(s: State, t: nat, c: nat, n: nat, message: Word, pc: PC)
    requires Inv(s) && t < |s.frames| && Cursor(s.frames[t].pc) == Some(c) && Passes(s, t, n, message, pc)
    ensures c < |s.frames| && n < |s.frames| && |s.h.marks| == |s.h.line| && SlotOk(Pass(s, t, c, message, pc), n)
  {
    hide Inv, CursorOk;
    CursorFacts(s, t);
    SuccessorFacts(s, t, n);
    Facts(s, n);
  }

  lemma PassCursor(s: State, t: nat, c: nat, n: nat, message: Word, pc: PC)
    requires Inv(s) && t < |s.frames| && Cursor(s.frames[t].pc) == Some(c) && Passes(s, t, n, message, pc) && c != t
    ensures c < |s.frames| && |s.h.marks| == |s.h.line| && SlotOk(Pass(s, t, c, message, pc), c)
  {
    hide Inv;
    CursorFacts(s, t);
    SuccessorFacts(s, t, n);
    Facts(s, c);
    Mood(s, t);
  }

  lemma PassSelf(s: State, t: nat, c: nat, n: nat, message: Word, pc: PC)
    requires Inv(s) && t < |s.frames| && Cursor(s.frames[t].pc) == Some(c) && Passes(s, t, n, message, pc)
    ensures c < |s.frames| && |s.h.marks| == |s.h.line| && SlotOk(Pass(s, t, c, message, pc), t)
  {
    hide Inv, WordOk, ClosureOk;
    CursorFacts(s, t);
    SuccessorFacts(s, t, n);
    Facts(s, t);
    Core(s);
    PassSelfWord(s, t, c, n, message, pc);
    PassSelfClosure(s, t, c, n, message, pc);
  }

  lemma PassSelfWord(s: State, t: nat, c: nat, n: nat, message: Word, pc: PC)
    requires Inv(s) && t < |s.frames| && Cursor(s.frames[t].pc) == Some(c) && Passes(s, t, n, message, pc)
    ensures c < |s.frames| && |s.h.marks| == |s.h.line| && WordOk(Pass(s, t, c, message, pc), t)
  {
    hide Inv, ClosureOk, RequestOk, IdentityOk, MessageOk;
    CursorFacts(s, t);
    SuccessorFacts(s, t, n);
    Facts(s, t);
    if c != t { HeldByOne(s, t, t); }
  }

  lemma PassSelfClosure(s: State, t: nat, c: nat, n: nat, message: Word, pc: PC)
    requires Inv(s) && t < |s.frames| && Cursor(s.frames[t].pc) == Some(c) && Passes(s, t, n, message, pc)
    ensures c < |s.frames| && |s.h.marks| == |s.h.line| && ClosureOk(Pass(s, t, c, message, pc), t)
  {
    hide Inv, RoleOk, WordOk, CursorOk;
    CursorFacts(s, t);
    SuccessorFacts(s, t, n);
    CursorPlace(s, t);
    Facts(s, t);
    if c != t { HeldByOne(s, t, t); }
  }

  lemma PassGlobal(s: State, t: nat, c: nat, n: nat, message: Word, pc: PC)
    requires Inv(s) && t < |s.frames| && Cursor(s.frames[t].pc) == Some(c) && Passes(s, t, n, message, pc)
    ensures c < |s.frames| && GlobalOk(Pass(s, t, c, message, pc))
  {
    hide Inv, CursorOk;
    CursorFacts(s, t);
    SuccessorFacts(s, t, n);
    Mood(s, t);
    Core(s);
  }

  lemma PassOk(s: State, t: nat, c: nat, n: nat, message: Word, pc: PC)
    requires Inv(s) && t < |s.frames| && Cursor(s.frames[t].pc) == Some(c) && Passes(s, t, n, message, pc)
    ensures c < |s.frames| && Inv(Pass(s, t, c, message, pc))
  {
    hide Inv, SlotOk, GlobalOk;
    SoundOk(s, t);
    var s' := Pass(s, t, c, message, pc);
    PassGlobal(s, t, c, n, message, pc);
    PassSelf(s, t, c, n, message, pc);
    PassSuccessor(s, t, c, n, message, pc);
    if c != t { PassCursor(s, t, c, n, message, pc); }
    RecordsOk(s, s', |s.h.calls|);
    forall u: nat | u < |s.frames| ensures |s'.h.marks| == |s'.h.line| && SlotOk(s', u) {
      if u != t && u != c && u != n { PassOthers(s, t, c, n, message, pc, u); }
    }
    forall i: nat | i < |s'.h.line| ensures |s'.h.marks| == |s'.h.line| && PlaceOk(s', i) {
      if i == s.h.front || i == s.frames[c].pos { PassEnds(s, t, c, n, message, pc, i); }
      else { PassPlaces(s, t, c, n, message, pc, i); }
    }
    Assemble(s');
  }

  // ---------- closing the chain ----------

  /** A successful `DoClose` or `DoBombClose`. */
  ghost predicate Shuts(s: State, t: nat, c: nat, pc: PC)
    requires t < |s.frames|
  {
    var f := s.frames[t];
    && s.raw.tail == Some(c)
    && (|| (f.pc == Combine(c, Close) && pc == Last(c, Release))
        || (f.pc.Bomb? && f.pc == Bomb(c, BombClose, f.pc.why) && pc == Last(c, Finish(f.pc.why))))
  }

  /** The tail can be closed only at the last place of the chain, when every place has been reached. */
  lemma ShutFacts(s: State, t: nat, c: nat, pc: PC)
    requires Inv(s) && t < |s.frames| && Shuts(s, t, c, pc)
    ensures s.h.front == |s.h.line| == |s.h.marks|
    ensures Drives(s.frames[t].pc) && Cursor(s.frames[t].pc) == Cursor(pc) == Some(c)
    ensures forall u: nat | u < |s.frames| :: !s.frames[u].pc.Acquire?
  {
    CursorFacts(s, t);
    TailAlive(s);
    forall u: nat | u < |s.frames| ensures !s.frames[u].pc.Acquire? {
      if s.frames[u].pc.Acquire? { RacerFacts(s, u); }
    }
  }

  lemma ShutOthers(s: State, t: nat, c: nat, pc: PC, u: nat)
    requires Inv(s) && t < |s.frames| && Shuts(s, t, c, pc) && u < |s.frames| && u != t
    ensures |s.h.marks| == |s.h.line| && SlotOk(Shut(s, t, c, pc), u)
  {
    hide Inv;
    ShutFacts(s, t, c, pc);
    SoundOk(s, u);
    OthersOk(s, Shut(s, t, c, pc), t, u);
  }

  lemma ShutSelf(s: State, t: nat, c: nat, pc: PC)
    requires Inv(s) && t < |s.frames| && Shuts(s, t, c, pc)
    ensures |s.h.marks| == |s.h.line| && SlotOk(Shut(s, t, c, pc), t)
  {
    hide Inv;
    ShutFacts(s, t, c, pc);
    Facts(s, t);
  }

  lemma ShutPlaces(s: State, t: nat, c: nat, pc: PC, i: nat)
    requires Inv(s) && t < |s.frames| && Shuts(s, t, c, pc) && i < |s.h.line|
    ensures |s.h.marks| == |s.h.line| && PlaceOk(Shut(s, t, c, pc), i)
  {
    hide Inv;
    ShutFacts(s, t, c, pc);
    Spot(s, i);
    PlaceCalmOk(s, Shut(s, t, c, pc), i);
  }

  lemma ShutOk(s: State, t: nat, c: nat, pc: PC)
    requires Inv(s) && t < |s.frames| && Shuts(s, t, c, pc)
    ensures Inv(Shut(s, t, c, pc))
  {
    hide Inv, SlotOk;
    ShutFacts(s, t, c, pc);
    ShutSelf(s, t, c, pc);
    Mood(s, t);
    Core(s);
    assert pc.Last?;
    var s' := Shut(s, t, c, pc);
    RecordsOk(s, s', |s.h.calls|);
    forall u: nat | u < |s.frames| ensures SlotOk(s', u) {
      if u != t { ShutOthers(s, t, c, pc, u); }
    }
    forall i: nat | i < |s'.h.line| ensures PlaceOk(s', i) { ShutPlaces(s, t, c, pc, i); }
    Assemble(s');
  }

  // ---------- handing the lock over ----------

  lemma PromoteOthers(s: State, t: nat, c: nat, n: nat, u: nat)
    requires Inv(s) && t < |s.frames| && s.frames[t].pc == Combine(c, Promote(n)) && u < |s.frames| && u != t && u != n
    ensures n < |s.frames| && |s.h.marks| == |s.h.line| && SlotOk(DoPromote(s, t, c, n), u)
  {
    hide Inv;
    SuccessorFacts(s, t, n);
    SoundOk(s, t);
    SoundOk(s, u);
    OthersOk(s, DoPromote(s, t, c, n), t, u);
  }

  lemma PromoteSelf(s: State, t: nat, c: nat, n: nat)
    requires Inv(s) && t < |s.frames| && s.frames[t].pc == Combine(c, Promote(n))
    ensures n < |s.frames| && |s.h.marks| == |s.h.line|
    ensures SlotOk(DoPromote(s, t, c, n), t)
  {
    hide Inv;
    CursorFacts(s, t);
    SuccessorFacts(s, t, n);
    Facts(s, t);
  }

  lemma PromoteHeir(s: State, t: nat, c: nat, n: nat)
    requires Inv(s) && t < |s.frames| && s.frames[t].pc == Combine(c, Promote(n))
    ensures n < |s.frames| && |s.h.marks| == |s.h.line|
    ensures SlotOk(DoPromote(s, t, c, n), n)
  {
    hide Inv;
    CursorFacts(s, t);
    SuccessorFacts(s, t, n);
    Facts(s, n);
  }

  lemma PromotePlaces(s: State, t: nat, c: nat, n: nat, i: nat)
    requires Inv(s) && t < |s.frames| && s.frames[t].pc == Combine(c, Promote(n)) && i < |s.h.line|
    ensures n < |s.frames| && |s.h.marks| == |s.h.line| && PlaceOk(DoPromote(s, t, c, n), i)
  {
    hide Inv;
    SuccessorFacts(s, t, n);
    Spot(s, i);
    PlaceCalmOk(s, DoPromote(s, t, c, n), i);
  }

  lemma PromoteOk(s: State, t: nat, c: nat, n: nat)
    requires Inv(s) && t < |s.frames| && s.frames[t].pc == Combine(c, Promote(n))
    ensures n < |s.frames| && Inv(DoPromote(s, t, c, n))
  {
    hide Inv, SlotOk;
    SuccessorFacts(s, t, n);
    PromoteSelf(s, t, c, n);
    PromoteHeir(s, t, c, n);
    var s' := DoPromote(s, t, c, n);
    Core(s);
    Mood(s, t);
    RecordsOk(s, s', |s.h.calls|);
    forall u: nat | u < |s.frames| ensures SlotOk(s', u) {
      if u != t && u != n { PromoteOthers(s, t, c, n, u); }
    }
    forall i: nat | i < |s'.h.line| ensures PlaceOk(s', i) { PromotePlaces(s, t, c, n, i); }
    Assemble(s');
  }

  // ---------- the last notification ----------

  lemma LastUntouched(s: State, t: nat, c: nat, end: End, u: nat)
    requires Inv(s) && t < |s.frames| && s.frames[t].pc == Last(c, end) && u < |s.frames| && u != t && u != c
    ensures c < |s.frames| && |s.h.marks| == |s.h.line| && Untouched(s, DoLast(s, t, c, end), u)
  {
    hide Inv, SlotOk;
    Apart(s, t, u);
    Facts(s, u);
    CursorPlace(s, t);
  }

  lemma LastOthers(s: State, t: nat, c: nat, end: End, u: nat)
    requires Inv(s) && t < |s.frames| && s.frames[t].pc == Last(c, end) && u < |s.frames| && u != t && u != c
    ensures c < |s.frames| && |s.h.marks| == |s.h.line| && SlotOk(DoLast(s, t, c, end), u)
  {
    hide Inv, SlotOk, Untouched;
    LastUntouched(s, t, c, end, u);
    Facts(s, u);
    if Heir(s.frames[u].pc).Some? { HeirWaits(s, u); }
    CursorPlace(s, t);
    CalmOk(s, DoLast(s, t, c, end), u);
  }

  lemma LastCursor(s: State, t: nat, c: nat, end: End)
    requires Inv(s) && t < |s.frames| && s.frames[t].pc == Last(c, end) && c != t
    ensures c < |s.frames| && |s.h.marks| == |s.h.line| && SlotOk(DoLast(s, t, c, end), c)
  {
    hide Inv;
    CursorFacts(s, t);
    Facts(s, c);
    Mood(s, t);
  }

  lemma LastSelf(s: State, t: nat, c: nat, end: End)
    requires Inv(s) && t < |s.frames| && s.frames[t].pc == Last(c, end)
    ensures c < |s.frames| && |s.h.marks| == |s.h.line| && SlotOk(DoLast(s, t, c, end), t)
  {
    hide Inv, WordOk, ClosureOk;
    CursorFacts(s, t);
    Facts(s, t);
    LastSelfWord(s, t, c, end);
    LastSelfClosure(s, t, c, end);
  }

  lemma LastSelfWord(s: State, t: nat, c: nat, end: End)
    requires Inv(s) && t < |s.frames| && s.frames[t].pc == Last(c, end)
    ensures c < |s.frames| && |s.h.marks| == |s.h.line|
    ensures var s' := DoLast(s, t, c, end); InLine(s'.frames[t]) ==> WordOk(s', t)
  {
    hide Inv, ClosureOk;
    CursorFacts(s, t);
    Facts(s, t);
    if c != t { HeldByOne(s, t, t); }
  }

  lemma LastSelfClosure(s: State, t: nat, c: nat, end: End)
    requires Inv(s) && t < |s.frames| && s.frames[t].pc == Last(c, end)
    ensures c < |s.frames| && |s.h.marks| == |s.h.line| && ClosureOk(DoLast(s, t, c, end), t)
  {
    hide Inv;
    CursorFacts(s, t);
    Facts(s, t);
    if c != t { HeldByOne(s, t, t); }
  }

  /** Nobody is about to link to the cursor of a leaving thread. */
  lemma NoLateLink(s: State, t: nat, c: nat)
    requires Inv(s) && t < |s.frames| && s.frames[t].pc.Last? && s.frames[t].pc.cursor == c
    ensures c < |s.frames| && s.frames[c].pos < |s.h.line| == |s.h.marks|
    ensures s.frames[c].pos + 1 < |s.h.line| ==> !s.h.marks[s.frames[c].pos + 1].Fresh?
  {
    hide Inv;
    CursorFacts(s, t);
    var i := s.frames[c].pos + 1;
    Spot(s, i - 1);
    if i < |s.h.line| {
      Spot(s, i);
      if s.h.owner.Some? { Core(s); }
      if s.h.marks[i].Fresh? { Core(s); Facts(s, s.h.line[i].slot); }
    }
  }

  lemma LastPlaceOfCursor(s: State, t: nat, c: nat, end: End)
    requires Inv(s) && t < |s.frames| && s.frames[t].pc == Last(c, end)
    ensures c < |s.frames| && s.frames[c].pos < |s.h.line| == |s.h.marks|
    ensures PlaceOk(DoLast(s, t, c, end), s.frames[c].pos)
  {
    hide Inv, CursorOk;
    CursorPlace(s, t);
    NoLateLink(s, t, c);
    RightMessage(s, t);
    Spot(s, s.frames[c].pos);
  }

  lemma LastPlaces(s: State, t: nat, c: nat, end: End, i: nat)
    requires Inv(s) && t < |s.frames| && s.frames[t].pc == Last(c, end) && i < |s.h.line|
    requires c < |s.frames| && i != s.frames[c].pos
    ensures |s.h.marks| == |s.h.line| && PlaceOk(DoLast(s, t, c, end), i)
  {
    hide Inv, CursorOk, SlotOk;
    CursorPlace(s, t);
    NoLateLink(s, t, c);
    SoundOk(s, t);
    Spot(s, i);
    PlaceCalmOk(s, DoLast(s, t, c, end), i);
  }

  /** The owner keeps the lock, and the driver its cursor, when some other thread is leaving. */
  lemma LastGlobal(s: State, t: nat, c: nat, end: End)
    requires Inv(s) && t < |s.frames| && s.frames[t].pc == Last(c, end)
    ensures c < |s.frames| && GlobalOk(DoLast(s, t, c, end))
  {
    hide Inv, CursorOk;
    CursorFacts(s, t);
    Core(s);
    assert WordOk(s, c) by { Facts(s, c); }
  }

  lemma LastOk(s: State, t: nat, c: nat, end: End)
    requires Inv(s) && t < |s.frames| && s.frames[t].pc == Last(c, end)
    ensures c < |s.frames| && Inv(DoLast(s, t, c, end))
  {
    hide Inv, SlotOk, CursorOk, GlobalOk;
    CursorFacts(s, t);
    var s' := DoLast(s, t, c, end);
    LastSelf(s, t, c, end);
    LastGlobal(s, t, c, end);
    if c != t { LastCursor(s, t, c, end); }
    assert |s.h.marks| == |s.h.line|;
    RecordsOk(s, s', |s.h.calls|);
    forall u: nat | u < |s.frames| ensures |s'.h.marks| == |s'.h.line| && SlotOk(s', u) {
      if u != t && u != c { LastOthers(s, t, c, end, u); }
    }
    forall i: nat | i < |s'.h.line| ensures |s'.h.marks| == |s'.h.line| && PlaceOk(s', i) {
      if i == s.frames[c].pos { LastPlaceOfCursor(s, t, c, end); } else { LastPlaces(s, t, c, end, i); }
    }
    Assemble(s');
  }

  // ---------- poisoning ----------

  lemma PoisonOthers(s: State, t: nat, a: nat, why: Why, u: nat)
    requires Inv(s) && t < |s.frames| && s.frames[t].pc == Bomb(a, Poison, why) && u < |s.frames| && u != t
    ensures a < |s.frames| && |s.h.marks| == |s.h.line| && SlotOk(DoBomb(s, t, a, Poison, why), u)
  {
    hide Inv;
    SoundOk(s, t);
    SoundOk(s, u);
    OthersOk(s, DoBomb(s, t, a, Poison, why), t, u);
  }

  lemma PoisonSelf(s: State, t: nat, a: nat, why: Why)
    requires Inv(s) && t < |s.frames| && s.frames[t].pc == Bomb(a, Poison, why)
    ensures a < |s.frames| && |s.h.marks| == |s.h.line| && SlotOk(DoBomb(s, t, a, Poison, why), t)
  {
    hide Inv;
    CursorFacts(s, t);
    Facts(s, t);
  }

  lemma PoisonPlaces(s: State, t: nat, a: nat, why: Why, i: nat)
    requires Inv(s) && t < |s.frames| && s.frames[t].pc == Bomb(a, Poison, why) && i < |s.h.line|
    ensures a < |s.frames| && |s.h.marks| == |s.h.line| && PlaceOk(DoBomb(s, t, a, Poison, why), i)
  {
    hide Inv;
    CursorFacts(s, t);
    Spot(s, i);
    PlaceCalmOk(s, DoBomb(s, t, a, Poison, why), i);
  }

  lemma PoisonOk(s: State, t: nat, a: nat, why: Why)
    requires Inv(s) && t < |s.frames| && s.frames[t].pc == Bomb(a, Poison, why)
    ensures a < |s.frames| && Inv(DoBomb(s, t, a, Poison, why))
  {
    hide Inv, SlotOk, PlaceOk;
    CursorFacts(s, t);
    PoisonSelf(s, t, a, why);
    var s' := DoBomb(s, t, a, Poison, why);
    Core(s);
    Mood(s, t);
    RecordsOk(s, s', |s.h.calls|);
    forall u: nat | u < |s.frames| ensures SlotOk(s', u) {
      if u != t { PoisonOthers(s, t, a, why, u); }
    }
    forall i: nat | i < |s'.h.line| ensures PlaceOk(s', i) { PoisonPlaces(s, t, a, why, i); }
    Assemble(s');
  }
}
