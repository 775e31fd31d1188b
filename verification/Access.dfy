/** `Touches` is complete: a step neither writes nor reads a node that is not in it. */
module Access {
  import opened CursorSteps
  import opened Invariant
  import opened Machine

  /** The memory of the node and closure slot in `f`; the rest of a frame is its thread and history. */
  ghost predicate SameMemory(f: Frame, f': Frame) {
    && f'.word == f.word && f'.next == f.next && f'.task == f.task
    && f'.full == f.full && f'.started == f.started && f'.result == f.result
  }

  /** The same thread with any other memory. */
  ghost predicate SameThread(f: Frame, f': Frame) {
    f'.pc == f.pc && f'.rid == f.rid && f'.pos == f.pos
  }

  /** Apart from the memory of slot `u`, the lock, the protected memory and all slots are the same. */
  ghost predicate SameElsewhere(s: State, s': State, u: nat) {
    && |s'.frames| == |s.frames| && s'.raw == s.raw && s'.mem == s.mem
    && forall v: nat | v < |s.frames| && v != u :: s'.frames[v] == s.frames[v]
  }

  /**
   * The step from `s` to `s'` leaves the memory of `u` alone, and from `r` goes the same way to `r'`, as
   * far as `v` is concerned.
   */
  ghost predicate Oblivious(s: State, s': State, r': State, u: nat, v: nat)
    requires u < |s.frames| && v < |s.frames|
  {
    && |s'.frames| == |r'.frames| == |s.frames| && SameMemory(s.frames[u], s'.frames[u])
    && r'.raw == s'.raw && r'.mem == s'.mem
    && (v != u ==> r'.frames[v] == s'.frames[v])
  }

  lemma WaitOblivious(s: State, r: State, t: nat, op: WaitOp, u: nat, v: nat, other: Frame)
    requires t < |s.frames| && u < |s.frames| && u != t && v < |s.frames| && SameThread(s.frames[u], other)
    requires r == s.(frames := s.frames[u := other])
    ensures Oblivious(s, DoWait(s, t, op), DoWait(r, t, op), u, v)
  {
  }

  lemma ExecuteOblivious(s: State, r: State, t: nat, c: nat, op: CombineOp, u: nat, v: nat, other: Frame)
    requires t < |s.frames| && u < |s.frames| && u != t && v < |s.frames| && SameThread(s.frames[u], other)
    requires r == s.(frames := s.frames[u := other])
    requires c < |s.frames| && u != c && (op.Begin? || op.Execute?)
    ensures Oblivious(s, DoCombine(s, t, c, op), DoCombine(r, t, c, op), u, v)
  {
    hide DoAdvance, DoPromote, DoClose, Logged, Use;
  }

  lemma SeekOblivious(s: State, r: State, t: nat, c: nat, op: CombineOp, u: nat, v: nat, other: Frame)
    requires t < |s.frames| && u < |s.frames| && u != t && v < |s.frames| && SameThread(s.frames[u], other)
    requires r == s.(frames := s.frames[u := other])
    requires op.WakePrev? || op.LoadNext? || op.HandOff? || op.Close?
    requires c < |s.frames| && (op.WakePrev? || op.Close? || u != c)
    ensures Oblivious(s, DoCombine(s, t, c, op), DoCombine(r, t, c, op), u, v)
  {
    hide DoAdvance, DoPromote, DoBegin, DoExecute;
  }

  lemma PassOblivious(s: State, r: State, t: nat, c: nat, op: CombineOp, u: nat, v: nat, other: Frame)
    requires t < |s.frames| && u < |s.frames| && u != t && v < |s.frames| && SameThread(s.frames[u], other)
    requires r == s.(frames := s.frames[u := other])
    requires c < |s.frames| && ((op.Advance? && u != c) || (op.Promote? && op.heir < |s.frames| && u != op.heir))
    ensures Oblivious(s, DoCombine(s, t, c, op), DoCombine(r, t, c, op), u, v)
  {
    hide DoBegin, DoExecute, DoClose, Take, Settle;
  }

  lemma BombOblivious(s: State, r: State, t: nat, a: nat, op: BombOp, why: Why, u: nat, v: nat, other: Frame)
    requires t < |s.frames| && u < |s.frames| && u != t && v < |s.frames| && SameThread(s.frames[u], other)
    requires r == s.(frames := s.frames[u := other])
    requires a < |s.frames| && !op.BombAdvance? && (op.Poison? || op.BombWake? || op.BombClose? || u != a)
    ensures Oblivious(s, DoBomb(s, t, a, op, why), DoBomb(r, t, a, op, why), u, v)
  {
    hide DoBombAdvance;
  }

  lemma BombPassOblivious(s: State, r: State, t: nat, a: nat, n: nat, why: Why, u: nat, v: nat, other: Frame)
    requires t < |s.frames| && u < |s.frames| && u != t && v < |s.frames| && SameThread(s.frames[u], other)
    requires r == s.(frames := s.frames[u := other])
    requires a < |s.frames| && u != a
    ensures Oblivious(s, DoBombAdvance(s, t, a, n, why), DoBombAdvance(r, t, a, n, why), u, v)
  {
    hide Take, Settle;
  }

  lemma BombAdvances(s: State, t: nat, a: nat, n: nat, why: Why)
    requires t < |s.frames| && a < |s.frames|
    ensures DoBomb(s, t, a, BombAdvance(n), why) == DoBombAdvance(s, t, a, n, why)
  {
  }

  lemma FastOblivious(s: State, r: State, t: nat, u: nat, v: nat, other: Frame)
    requires t < |s.frames| && u < |s.frames| && u != t && v < |s.frames| && SameThread(s.frames[u], other)
    requires r == s.(frames := s.frames[u := other])
    requires s.frames[t].pc.PeekTail? || s.frames[t].pc.FastLock? || s.frames[t].pc.Fast?
    ensures Oblivious(s, Next(s, Step(t)), Next(r, Step(t)), u, v)
  {
    hide DoWait, DoCombine, DoBomb;
  }

  lemma JoinOblivious(s: State, r: State, t: nat, u: nat, v: nat, other: Frame)
    requires Inv(s) && t < |s.frames| && u < |s.frames| && u != t && v < |s.frames| && SameThread(s.frames[u], other)
    requires r == s.(frames := s.frames[u := other]) && u !in Touches(s.frames[t].pc)
    requires s.frames[t].pc.Idle? || s.frames[t].pc.Enqueue? || s.frames[t].pc.Link? || s.frames[t].pc.Acquire?
    ensures Oblivious(s, Next(s, Step(t)), Next(r, Step(t)), u, v)
  {
    hide Inv, DoWait, DoCombine, DoBomb, DoPeekTail, DoFastLock, DoFastBegin, DoFastRun, DoFastDrop;
    hide DoBow, DoLast, DoLastWake, DoUnlock, DoReturn, Early;
    SoundOk(s, t);
  }

  lemma LastOblivious(s: State, r: State, t: nat, u: nat, v: nat, other: Frame)
    requires Inv(s) && t < |s.frames| && u < |s.frames| && u != t && v < |s.frames| && SameThread(s.frames[u], other)
    requires r == s.(frames := s.frames[u := other])
    requires s.frames[t].pc.Last? && u != s.frames[t].pc.cursor
    ensures Oblivious(s, Next(s, Step(t)), Next(r, Step(t)), u, v)
  {
    hide Inv, DoWait, DoCombine, DoBomb, Settle;
    SoundOk(s, t);
  }

  lemma WakeOblivious(s: State, r: State, t: nat, c: nat, address: nat, end: End, u: nat, v: nat, other: Frame)
    requires t < |s.frames| && u < |s.frames| && u != t && v < |s.frames| && SameThread(s.frames[u], other)
    requires r == s.(frames := s.frames[u := other])
    ensures Oblivious(s, DoBow(s, t, c, address), DoBow(r, t, c, address), u, v)
    ensures Oblivious(s, DoLastWake(s, t, address, end), DoLastWake(r, t, address, end), u, v)
    ensures Oblivious(s, DoUnlock(s, t), DoUnlock(r, t), u, v)
  {
  }

  lemma ReturnOblivious(s: State, r: State, t: nat, verdict: Verdict, u: nat, v: nat, other: Frame)
    requires t < |s.frames| && u < |s.frames| && u != t && v < |s.frames| && SameThread(s.frames[u], other)
    requires r == s.(frames := s.frames[u := other])
    ensures Oblivious(s, DoReturn(s, t, verdict), DoReturn(r, t, verdict), u, v)
  {
    hide Answered, Use;
  }

  lemma StepOblivious(s: State, t: nat, u: nat, v: nat, other: Frame)
    requires Inv(s) && Enabled(s, Step(t)) && u < |s.frames| && u != t && u !in Touches(s.frames[t].pc)
    requires v < |s.frames| && SameThread(s.frames[u], other)
    ensures Oblivious(s, Next(s, Step(t)), Next(s.(frames := s.frames[u := other]), Step(t)), u, v)
  {
    var r := s.(frames := s.frames[u := other]);
    if s.frames[t].pc.Wait? || s.frames[t].pc.Combine? || s.frames[t].pc.Bomb? {
      QueueOblivious(s, r, t, u, v, other);
    } else if s.frames[t].pc.PeekTail? || s.frames[t].pc.FastLock? || s.frames[t].pc.Fast? {
      FastOblivious(s, r, t, u, v, other);
    } else if s.frames[t].pc.Idle? || s.frames[t].pc.Enqueue? || s.frames[t].pc.Link? || s.frames[t].pc.Acquire? {
      JoinOblivious(s, r, t, u, v, other);
    } else if s.frames[t].pc.Last? {
      LastOblivious(s, r, t, u, v, other);
    } else {
      EndOblivious(s, r, t, u, v, other);
    }
  }

  lemma EndOblivious(s: State, r: State, t: nat, u: nat, v: nat, other: Frame)
    requires t < |s.frames| && u < |s.frames| && u != t && v < |s.frames| && SameThread(s.frames[u], other)
    requires r == s.(frames := s.frames[u := other])
    requires var pc := s.frames[t].pc; pc.Bow? || pc.LastWake? || pc.Unlock? || pc.Return?
    ensures Oblivious(s, Next(s, Step(t)), Next(r, Step(t)), u, v)
  {
    hide Oblivious, DoBow, DoLastWake, DoUnlock, DoReturn;
    match s.frames[t].pc
    case Bow(c, address) => WakeOblivious(s, r, t, c, address, Leave, u, v, other);
    case LastWake(address, end) => WakeOblivious(s, r, t, 0, address, end, u, v, other);
    case Unlock => WakeOblivious(s, r, t, 0, 0, Leave, u, v, other);
    case Return(verdict) => ReturnOblivious(s, r, t, verdict, u, v, other);
  }

  lemma QueueOblivious(s: State, r: State, t: nat, u: nat, v: nat, other: Frame)
    requires Inv(s) && t < |s.frames| && u < |s.frames| && u != t && u !in Touches(s.frames[t].pc)
    requires v < |s.frames| && SameThread(s.frames[u], other) && r == s.(frames := s.frames[u := other])
    requires s.frames[t].pc.Wait? || s.frames[t].pc.Combine? || s.frames[t].pc.Bomb?
    ensures Oblivious(s, Next(s, Step(t)), Next(r, Step(t)), u, v)
  {
    hide Inv, Oblivious, DoWait, DoCombine, DoBomb;
    SoundOk(s, t);
    match s.frames[t].pc
    case Wait(op) => WaitOblivious(s, r, t, op, u, v, other);
    case Combine(c, op) =>
      if op.Promote? { SuccessorFacts(s, t, op.heir); }
      if op.Advance? || op.Promote? {
        PassOblivious(s, r, t, c, op, u, v, other);
      } else if op.Begin? || op.Execute? {
        ExecuteOblivious(s, r, t, c, op, u, v, other);
      } else {
        SeekOblivious(s, r, t, c, op, u, v, other);
      }
    case Bomb(a, op, why) =>
      if op.BombAdvance? {
        BombPassOblivious(s, r, t, a, op.next, why, u, v, other);
        assert DoBomb(s, t, a, op, why) == DoBombAdvance(s, t, a, op.next, why) by {
          BombAdvances(s, t, a, op.next, why);
        }
        assert DoBomb(r, t, a, op, why) == DoBombAdvance(r, t, a, op.next, why) by {
          BombAdvances(r, t, a, op.next, why);
        }
      } else {
        BombOblivious(s, r, t, a, op, why, u, v, other);
      }
  }

  /** A step writes its own node and those in `Touches`, and no other. */
  lemma WritesOnly(s: State, t: nat, u: nat)
    requires Inv(s) && Enabled(s, Step(t)) && u < |s.frames| && u != t && u !in Touches(s.frames[t].pc)
    ensures |Next(s, Step(t)).frames| == |s.frames| && SameMemory(s.frames[u], Next(s, Step(t)).frames[u])
  {
    hide Inv, Next;
    StepOblivious(s, t, u, u, s.frames[u]);
  }

  /** A step reads its own node and those in `Touches`: no other node's memory makes a difference to it. */
  lemma ReadsOnly(s: State, t: nat, u: nat, other: Frame)
    requires Inv(s) && Enabled(s, Step(t)) && u < |s.frames| && u != t && u !in Touches(s.frames[t].pc)
    requires SameThread(s.frames[u], other)
    ensures SameElsewhere(Next(s, Step(t)), Next(s.(frames := s.frames[u := other]), Step(t)), u)
  {
    hide Inv, Next;
    StepOblivious(s, t, u, u, other);
    assert |Next(s, Step(t)).frames| == |s.frames|;
    forall v: nat | v < |s.frames| && v != u
      ensures Next(s.(frames := s.frames[u := other]), Step(t)).frames[v] == Next(s, Step(t)).frames[v]
    {
      StepOblivious(s, t, u, v, other);
    }
  }
}
