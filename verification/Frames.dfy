/** What a slot, a place or a request can see of a step that some other thread makes. */
module Frames {
  import opened Atomics
  import opened Machine
  import opened Invariant

  /** History only grows. */
  ghost predicate Grows(s: State, s': State) {
    && s'.mode == s.mode && s'.h.init == s.h.init
    && s.h.line <= s'.h.line && |s'.h.marks| == |s'.h.line|
    && s.h.log <= s'.h.log && |s.h.calls| <= |s'.h.calls|
    && |s'.frames| == |s.frames|
    && (s.raw.status == Dead ==> s'.raw.status == Dead)
  }

  /** All that other threads read of the node in `f`, apart from its link. */
  ghost predicate SameNode(f: Frame, f': Frame) {
    InLine(f') && f'.pos == f.pos && f'.result == f.result && f'.full == f.full && f'.task == f.task && f'.rid == f.rid
  }

  /** The step leaves slot `u`, and what it refers to, as they were. */
  ghost predicate Untouched(s: State, s': State, u: nat)
    requires u < |s.frames| && |s.h.marks| == |s.h.line|
  {
    && Grows(s, s')
    && var f := s.frames[u];
    && s'.frames[u] == f.(next := s'.frames[u].next)
    && (s'.frames[u].next == f.next || InLine(f))
    && (!f.pc.Idle? ==> f.rid < |s.h.calls| && s'.h.calls[f.rid] == s.h.calls[f.rid])
    && (Cursor(f.pc).Some? && Cursor(f.pc).value < |s.frames| ==>
          var c := Cursor(f.pc).value;
          SameNode(s.frames[c], s'.frames[c]) && s.frames[c].pos < |s.h.marks|
          && s'.h.marks[s.frames[c].pos] == s.h.marks[s.frames[c].pos])
    && (InLine(f) && f.pos < |s.h.marks| ==>
          && s'.h.marks[f.pos] == s.h.marks[f.pos]
          && (&& s.h.marks[f.pos].Held?
              && s.h.marks[f.pos].keeper < |s.frames|
              && Executing(s.frames[s.h.marks[f.pos].keeper].pc)
              ==> Executing(s'.frames[s.h.marks[f.pos].keeper].pc)))
  }

  /** A thread that neither owns the lock nor walks the open chain. */
  ghost predicate Bystander(f: Frame) {
    !Owns(f) && !Drives(f.pc)
  }

  lemma BystanderOk(s: State, s': State, u: nat)
    requires u < |s.frames| && |s.h.marks| == |s.h.line|
    requires SlotOk(s, u) && Untouched(s, s', u) && Bystander(s.frames[u])
    requires s.frames[u].pc.Acquire? ==> s'.h.front == s.h.front && s'.h.start == s.h.start
    ensures SlotOk(s', u)
  {
  }

  lemma CalmOk(s: State, s': State, u: nat)
    requires u < |s.frames| && |s.h.marks| == |s.h.line|
    requires SlotOk(s, u) && Untouched(s, s', u)
    requires s'.h.front == s.h.front && s'.h.start == s.h.start && s'.h.owner == s.h.owner
             && s'.raw.status == s.raw.status
    requires s'.mem == s.mem
    requires Heir(s.frames[u].pc).Some? ==> s.h.front < |s.h.marks| && s'.h.marks[s.h.front] == s.h.marks[s.h.front]
    ensures SlotOk(s', u)
  {
    hide Cursor, Heir, Drives, Executed, Executing, Ready, Closing;
  }

  /** The step leaves place `i`, and what it refers to, as they were. */
  ghost predicate PlaceUntouched(s: State, s': State, i: nat)
    requires |s.h.marks| == |s.h.line| && i < |s.h.line|
  {
    && Grows(s, s')
    && var e := s.h.line[i];
    && s'.h.marks[i] == s.h.marks[i]
    && (i < s.h.done <==> i < s'.h.done)
    && (i < s.h.front <==> i < s'.h.front)
    && (i >= s'.h.start ==> s'.h.start == s.h.start)
    && (e.rid < |s.h.calls| ==> s'.h.calls[e.rid].run == s.h.calls[e.rid].run)
    && (e.slot < |s.frames| && Unsettled(s.h.marks[i]) && InLine(s.frames[e.slot]) ==>
          var f := s.frames[e.slot];
          var f' := s'.frames[e.slot];
          && InLine(f') && f'.pos == f.pos && f'.rid == f.rid && f'.next == f.next
          && (f.pc.Link? ==> f'.pc.Link?)
          && Successor(s', i) == Successor(s, i))
    && (s.h.marks[i].Fresh? && 0 < i ==> s'.h.start == s.h.start && Unsettled(s'.h.marks[i - 1]))
    && (s.h.marks[i].Held? && s.h.marks[i].keeper < |s.frames| ==>
          Cursor(s'.frames[s.h.marks[i].keeper].pc) == Cursor(s.frames[s.h.marks[i].keeper].pc))
  }

  lemma PlaceCalmOk(s: State, s': State, i: nat)
    requires |s.h.marks| == |s.h.line| && i < |s.h.line|
    requires PlaceOk(s, i) && PlaceUntouched(s, s', i)
    ensures PlaceOk(s', i)
  {
    hide Cursor;
  }

  /** No request is forgotten: its slot still holds it unless it has returned. */
  lemma RequestCalmOk(s: State, s': State, r: nat)
    requires r < |s.h.calls| && RequestOk(s, r) && Grows(s, s')
    requires s'.h.calls[r] == s.h.calls[r]
    requires s.h.calls[r].ret.None? ==>
      s.h.calls[r].slot < |s.frames| && !s'.frames[s.h.calls[r].slot].pc.Idle? && s'.frames[s.h.calls[r].slot].rid == r
    ensures RequestOk(s', r)
  {
  }

  lemma LogCalmOk(s: State, s': State, k: nat)
    requires k < |s.h.log| && LogOk(s, k) && Grows(s, s')
    requires s'.h.calls[s.h.log[k].rid].run == s.h.calls[s.h.log[k].rid].run
    requires s'.h.calls[s.h.log[k].rid].task == s.h.calls[s.h.log[k].rid].task
    ensures LogOk(s', k)
  {
    assert s'.h.log[..k] == s.h.log[..k];
  }

  // ---------- steps that leave the lock and the queue alone ----------

  /** Only slot `t` and the history of its request change, and nothing that others rely on. */
  ghost predicate Calm(s: State, s': State, t: nat)
    requires t < |s.frames|
  {
    && Grows(s, s')
    && s'.raw == s.raw && s'.h.owner == s.h.owner && s'.mem == s.mem
    && s'.h.line == s.h.line && s'.h.marks == s.h.marks && s'.h.log == s.h.log
    && s'.h.start == s.h.start && s'.h.front == s.h.front && s'.h.done == s.h.done
    && (forall u: nat | u < |s.frames| && u != t :: s'.frames[u] == s.frames[u])
    && (forall r: nat | r < |s.h.calls| && (r != s.frames[t].rid || s.frames[t].pc.Idle?) ::
       s'.h.calls[r] == s.h.calls[r])
    && (forall r: nat | r < |s.h.calls| ::
       s'.h.calls[r].run == s.h.calls[r].run && s'.h.calls[r].task == s.h.calls[r].task)
    && var f := s.frames[t];
    && var f' := s'.frames[t];
    && (InLine(f) && f.pos < |s.h.marks| && Unsettled(s.h.marks[f.pos]) ==>
          SameNode(f, f') && f'.next == f.next && !f.pc.Link?)
    && Cursor(f.pc) == Cursor(f'.pc)
    && Owns(f) == Owns(f')
    && Drives(f.pc) == Drives(f'.pc)
    && (Ready(f.pc) || Executing(f.pc) <==> Ready(f'.pc) || Executing(f'.pc))
    && (Executing(f.pc) ==> Executing(f'.pc))
  }

  lemma CalmPlaces(s: State, s': State, t: nat, i: nat)
    requires Inv(s) && t < |s.frames| && Calm(s, s', t) && i < |s.h.line|
    ensures PlaceOk(s', i)
  {
    assert PlaceOk(s, i);
    hide Cursor, Owns, Executing;
    PlaceCalmOk(s, s', i);
  }

  lemma CalmSlots(s: State, s': State, t: nat, u: nat)
    requires Inv(s) && t < |s.frames| && Calm(s, s', t) && u < |s.frames| && u != t
    ensures SlotOk(s', u)
  {
    assert SlotOk(s, u) && SlotOk(s, t);
    hide Owns, Executing, Cursor, Heir, WordOk, ClosureOk;
    CalmOk(s, s', u);
  }

  lemma CalmStep(s: State, s': State, t: nat)
    requires Inv(s) && t < |s.frames| && Calm(s, s', t)
    requires SlotOk(s', t)
    requires s.frames[t].rid < |s.h.calls| && !s.frames[t].pc.Idle? ==> RequestOk(s', s.frames[t].rid)
    requires forall r: nat | |s.h.calls| <= r < |s'.h.calls| :: RequestOk(s', r)
    ensures Inv(s')
  {
    forall i: nat | i < |s'.h.line| ensures PlaceOk(s', i) { CalmPlaces(s, s', t, i); }
    forall u: nat | u < |s'.frames| ensures SlotOk(s', u) {
      if u != t { CalmSlots(s, s', t, u); }
    }
    hide Cursor, Executing;
    forall r: nat | r < |s'.h.calls| ensures RequestOk(s', r) {
      if r < |s.h.calls| {
        assert RequestOk(s, r);
        if r != s.frames[t].rid || s.frames[t].pc.Idle? { RequestCalmOk(s, s', r); }
      }
    }
    forall k: nat | k < |s'.h.log| ensures LogOk(s', k) {
      assert LogOk(s, k);
      LogCalmOk(s, s', k);
    }
  }
}
