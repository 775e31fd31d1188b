/** Every interleaving of any number of local states renting from one pool. */
module PoolRuns {
  import opened Wrappers
  import opened Blocks
  import opened Pool

  /** One `LocalState`: where its `get` is, and what it holds. */
  datatype Client =
    | Idle
    | PopOutside
    | WaitLock
    | PopInside
    | MapBlock
    | Pushing(page: nat, pushed: nat)  // the first `pushed` states of the new block are in the free list
    | Leave(got: Option<nat>)          // the lock is still held
    | Holding(ptr: nat)

  /** `mmaps` is guarded by the lock, whose holder is `holder`; the free list is shared. `peak` is history. */
  datatype State = State(config: Config, mmaps: seq<nat>, freelist: seq<nat>, holder: Option<nat>,
                         clients: seq<Client>, peak: nat)

  datatype Action = Begin(client: nat) | Step(client: nat, mapped: Option<nat>) | Drop(client: nat)

  ghost predicate InLock(c: Client) {
    c.PopInside? || c.MapBlock? || c.Pushing? || c.Leave?
  }

  /** The states a client has taken. */
  function Taken(c: Client): multiset<nat> {
    match c
    case Holding(ptr) => multiset{ptr}
    case Leave(Some(ptr)) => multiset{ptr}
    case _ => multiset{}
  }

  function Rented(clients: seq<Client>): multiset<nat> {
    if clients == [] then multiset{}
    else Rented(clients[..|clients| - 1]) + Taken(clients[|clients| - 1])
  }

  ghost predicate Enabled(s: State, a: Action) {
    a.client < |s.clients| &&
    var c := s.clients[a.client];
    match a
    case Begin(_) => c.Idle?
    case Drop(_) => c.Holding?
    case Step(_, mapped) =>
      && !c.Idle? && !c.Holding?
      && (c.WaitLock? ==> s.holder.None?)
      && (c.MapBlock? ==> s.config.Valid() && Fresh(s.config, s.mmaps, mapped))
  }

  function Goto(s: State, i: nat, c: Client): State
    requires i < |s.clients|
  {
    s.(clients := s.clients[i := c])
  }

  /** One step of `get`; each push and each pop is one step. */
  function Move(s: State, i: nat, mapped: Option<nat>): State
    requires i < |s.clients| && s.config.statesPerPage > 0
  {
    match s.clients[i]
    case Idle => s
    case Holding(_) => s
    case PopOutside =>
      if s.freelist == [] then Goto(s, i, WaitLock)
      else Goto(s, i, Holding(s.freelist[0])).(freelist := s.freelist[1..])
    case WaitLock => Goto(s, i, PopInside).(holder := Some(i))
    case PopInside =>
      if s.freelist == [] then Goto(s, i, MapBlock)
      else Goto(s, i, Leave(Some(s.freelist[0]))).(freelist := s.freelist[1..])
    case MapBlock =>
      if mapped.None? then Goto(s, i, Leave(None))
      else Goto(s, i, Pushing(mapped.value, 0)).(mmaps := s.mmaps + [mapped.value])
    case Pushing(page, pushed) =>
      if pushed < s.config.StatesPerBlock() then
        Goto(s, i, Pushing(page, pushed + 1)).(freelist := s.freelist + [s.config.StateAt(page, pushed)])
      else Goto(s, i, PopInside)
    case Leave(got) =>
      Goto(s, i, if got.Some? then Holding(got.value) else Idle).(holder := None)
  }

  function Next(s: State, a: Action): State
    requires a.client < |s.clients| && s.config.statesPerPage > 0
  {
    var s' := match a
      case Begin(i) => Goto(s, i, PopOutside)
      case Step(i, mapped) => Move(s, i, mapped)
      case Drop(i) =>
        if s.clients[i].Holding? then Goto(s, i, Idle).(freelist := s.freelist + [s.clients[i].ptr]) else s;
    Higher(s')
  }

  ghost predicate Initial(s: State) {
    && s.config.Valid()
    && s.mmaps == [] && s.freelist == [] && s.holder.None? && s.peak == 0
    && forall i | 0 <= i < |s.clients| :: s.clients[i].Idle?
  }

  // ---------- the invariant ----------

  /** The states of the new block that have not been pushed yet. */
  function Pending(s: State): seq<nat>
    requires s.config.statesPerPage > 0
  {
    if s.holder.Some? && s.holder.value < |s.clients| && s.clients[s.holder.value].Pushing?
       && s.clients[s.holder.value].pushed <= s.config.StatesPerBlock()
    then s.config.BlockStates(s.clients[s.holder.value].page)[s.clients[s.holder.value].pushed..]
    else []
  }

  /** Free, rented and not yet pushed states partition the states of all blocks. */
  ghost predicate Partition(s: State)
    requires s.config.statesPerPage > 0
  {
    multiset(s.freelist) + Rented(s.clients) + multiset(Pending(s)) == multiset(s.config.States(s.mmaps))
  }

  /** Only the holder of the lock is inside it; blocks are mapped when everything is rented. */
  ghost predicate Shape(s: State) {
    && s.config.Valid()
    && (s.holder.Some? ==> s.holder.value < |s.clients|)
    && (forall i: nat | i < |s.clients| :: InLock(s.clients[i]) <==> s.holder == Some(i))
    && (forall i: nat | i < |s.clients| && s.clients[i].Pushing? :: s.clients[i].pushed <= s.config.StatesPerBlock())
    && (forall i: nat | i < |s.clients| && s.clients[i].MapBlock? :: |s.mmaps| * s.config.StatesPerBlock() <= s.peak)
    && (s.mmaps != [] ==> (|s.mmaps| - 1) * s.config.StatesPerBlock() <= s.peak)
  }

  ghost predicate Sound(s: State) {
    s.config.Valid() && Shape(s) && Mapped(s.config, s.mmaps) && Partition(s) && s.peak <= |s.clients|
  }

  ghost predicate Inv(s: State) {
    Sound(s) && |Rented(s.clients)| <= s.peak
  }

  lemma Swap(a: multiset<nat>, b: multiset<nat>, c: multiset<nat>)
    ensures a + b + c == a + c + b
  {
  }

  lemma {:induction false} RentedChange(clients: seq<Client>, i: nat, c: Client)
    requires i < |clients|
    ensures Rented(clients[i := c]) + Taken(clients[i]) == Rented(clients) + Taken(c)
  {
    hide Taken;
    var front := clients[..|clients| - 1];
    var last := Taken(clients[|front|]);
    var clients' := clients[i := c];
    if i < |front| {
      RentedChange(front, i, c);
      assert clients'[..|front|] == front[i := c];
      Swap(Rented(front[i := c]), last, Taken(clients[i]));
      Swap(Rented(front), last, Taken(c));
    } else {
      assert clients'[..|front|] == front;
      Swap(Rented(front), last, Taken(c));
    }
  }

  lemma Cancel(a: multiset<nat>, b: multiset<nat>, x: multiset<nat>)
    requires a + x == b + x
    ensures a == b
  {
    forall y | true ensures a[y] == b[y] { assert (a + x)[y] == (b + x)[y]; }
  }

  lemma RentedKept(clients: seq<Client>, i: nat, c: Client)
    requires i < |clients| && Taken(c) == Taken(clients[i])
    ensures Rented(clients[i := c]) == Rented(clients)
  {
    hide Taken, Rented;
    RentedChange(clients, i, c);
    Cancel(Rented(clients[i := c]), Rented(clients), Taken(c));
  }

  lemma RentedMore(clients: seq<Client>, i: nat, c: Client, x: nat)
    requires i < |clients| && Taken(clients[i]) == multiset{} && Taken(c) == multiset{x}
    ensures Rented(clients[i := c]) == Rented(clients) + multiset{x}
  {
    hide Taken, Rented;
    RentedChange(clients, i, c);
    Cancel(Rented(clients[i := c]), Rented(clients) + multiset{x}, multiset{});
  }

  lemma RentedLess(clients: seq<Client>, i: nat, c: Client, x: nat)
    requires i < |clients| && Taken(clients[i]) == multiset{x} && Taken(c) == multiset{}
    ensures Rented(clients) == Rented(clients[i := c]) + multiset{x}
  {
    hide Taken, Rented;
    RentedChange(clients, i, c);
    Cancel(Rented(clients), Rented(clients[i := c]) + multiset{x}, multiset{});
  }

  lemma {:induction false} NoneRented(clients: seq<Client>)
    requires forall i | 0 <= i < |clients| :: Taken(clients[i]) == multiset{}
    ensures Rented(clients) == multiset{}
  {
    if clients != [] { NoneRented(clients[..|clients| - 1]); }
  }

  lemma InitialOk(s: State)
    requires Initial(s)
    ensures Inv(s)
  {
    NoneRented(s.clients);
  }

  // ---------- the steps ----------

  function Higher(s: State): State {
    s.(peak := if |Rented(s.clients)| > s.peak then |Rented(s.clients)| else s.peak)
  }

  lemma {:induction false} RentedCount(clients: seq<Client>)
    ensures |Rented(clients)| <= |clients|
  {
    if clients != [] { RentedCount(clients[..|clients| - 1]); }
  }

  lemma HigherOk(s: State)
    requires Sound(s)
    ensures Inv(Higher(s))
  {
    hide Mapped, Config.States, Rented;
    RentedCount(s.clients);
    assert Pending(Higher(s)) == Pending(s);
  }

  /** What is pending is decided by the client that holds the lock. */
  lemma PendingIs(s: State, i: nat)
    requires Shape(s) && i < |s.clients| && InLock(s.clients[i])
    ensures Pending(s) ==
            if s.clients[i].Pushing? then s.config.BlockStates(s.clients[i].page)[s.clients[i].pushed..] else []
  {
  }

  lemma PendingSame(s: State, i: nat, c: Client, freelist: seq<nat>)
    requires Shape(s) && i < |s.clients| && !InLock(s.clients[i]) && !InLock(c)
    ensures Pending(s.(clients := s.clients[i := c], freelist := freelist)) == Pending(s)
  {
  }

  lemma NothingPending(s: State)
    requires s.config.statesPerPage > 0
    requires s.holder.Some? && s.holder.value < |s.clients| ==> !s.clients[s.holder.value].Pushing?
    ensures Pending(s) == []
  {
  }

  /** A client moves on; inside the lock, it is the one that holds it. */
  lemma ShapeOk(s: State, i: nat, c: Client, holder: Option<nat>, freelist: seq<nat>)
    requires Shape(s) && i < |s.clients|
    requires InLock(c) ==> holder == Some(i) && (InLock(s.clients[i]) || s.holder.None?)
    requires !InLock(c) ==> holder == if InLock(s.clients[i]) then None else s.holder
    requires c.Pushing? ==> c.pushed <= s.config.StatesPerBlock()
    requires c.MapBlock? ==> |s.mmaps| * s.config.StatesPerBlock() <= s.peak
    ensures Shape(s.(clients := s.clients[i := c], holder := holder, freelist := freelist))
  {
    hide Config.StatesPerBlock;
  }

  /** A step that neither moves a state nor maps a block. */
  lemma QuietOk(s: State, i: nat, c: Client, holder: Option<nat>)
    requires Sound(s) && i < |s.clients| && Taken(c) == Taken(s.clients[i])
    requires !s.clients[i].Pushing? || s.clients[i].pushed == s.config.StatesPerBlock()
    requires !c.Pushing?
    requires InLock(c) ==> holder == Some(i) && (InLock(s.clients[i]) || s.holder.None?)
    requires !InLock(c) ==> holder == if InLock(s.clients[i]) then None else s.holder
    requires c.MapBlock? ==> |s.mmaps| * s.config.StatesPerBlock() <= s.peak
    ensures var s' := Goto(s, i, c).(holder := holder); Sound(s')
  {
    hide Partition, Shape, Mapped, Config.States, Taken, Rented, Pending;
    RentedKept(s.clients, i, c);
    var s' := Goto(s, i, c).(holder := holder);
    ShapeOk(s, i, c, holder, s.freelist);
    if InLock(c) || InLock(s.clients[i]) {
      if InLock(s.clients[i]) { PendingIs(s, i); } else { NothingPending(s); }
      if InLock(c) { PendingIs(s', i); } else { NothingPending(s'); }
    } else {
      PendingSame(s, i, c, s.freelist);
    }
    QuietPartition(s, s');
  }

  lemma QuietPartition(s: State, s': State)
    requires s.config.statesPerPage > 0 && Partition(s) && s'.config == s.config && s'.mmaps == s.mmaps
    requires s'.freelist == s.freelist && Rented(s.clients) == Rented(s'.clients) && Pending(s') == Pending(s)
    ensures Partition(s')
  {
  }

  /** A new block comes with its states pending. */
  lemma MapPartition(s: State, s': State, page: nat)
    requires s.config.Valid() && Partition(s) && s'.config == s.config && s'.mmaps == s.mmaps + [page]
    requires s'.freelist == s.freelist && Rented(s.clients) == Rented(s'.clients)
    requires Pending(s) == [] && Pending(s') == s.config.BlockStates(page)
    ensures Partition(s')
  {
    hide Rented, Pending, Config.States, Config.BlockStates;
    var states, all := s.config.BlockStates(page), s.config.States(s.mmaps);
    Grown(s.config, s.mmaps, page);
    assert multiset(all + states) == multiset(all) + multiset(states);
  }

  /** A free state is taken. */
  lemma TakePartition(s: State, s': State, x: nat)
    requires s.config.statesPerPage > 0 && Partition(s) && s'.config == s.config && s'.mmaps == s.mmaps
    requires s.freelist == [x] + s'.freelist && Rented(s'.clients) == Rented(s.clients) + multiset{x}
             && Pending(s') == Pending(s)
    ensures Partition(s')
  {
    hide Rented, Pending, Config.States;
    assert multiset(s.freelist) == multiset{x} + multiset(s'.freelist);
  }

  /** A state is put back. */
  lemma ReturnPartition(s: State, s': State, x: nat)
    requires s.config.statesPerPage > 0 && Partition(s) && s'.config == s.config && s'.mmaps == s.mmaps
    requires s'.freelist == s.freelist + [x] && Rented(s.clients) == Rented(s'.clients) + multiset{x}
             && Pending(s') == Pending(s)
    ensures Partition(s')
  {
    hide Rented, Pending, Config.States;
    assert multiset(s'.freelist) == multiset(s.freelist) + multiset{x};
  }

  /** A pending state becomes free. */
  lemma PushPartition(s: State, s': State, x: nat)
    requires s.config.statesPerPage > 0 && Partition(s) && s'.config == s.config && s'.mmaps == s.mmaps
    requires s'.freelist == s.freelist + [x] && Rented(s.clients) == Rented(s'.clients)
             && Pending(s) == [x] + Pending(s')
    ensures Partition(s')
  {
    hide Rented, Pending, Config.States;
    assert multiset(s'.freelist) == multiset(s.freelist) + multiset{x};
    assert multiset(Pending(s)) == multiset{x} + multiset(Pending(s'));
  }

  /** A client takes the first free state. */
  lemma PopOk(s: State, i: nat, c: Client)
    requires Sound(s) && i < |s.clients| && s.freelist != []
    requires Taken(s.clients[i]) == multiset{} && Taken(c) == multiset{s.freelist[0]}
    requires !s.clients[i].Pushing? && !c.Pushing? && !c.MapBlock? && InLock(c) == InLock(s.clients[i])
    ensures Sound(Goto(s, i, c).(freelist := s.freelist[1..]))
  {
    hide Partition, Shape, Mapped, Config.States, Taken, Rented, Pending, InLock;
    RentedMore(s.clients, i, c, s.freelist[0]);
    var s' := Goto(s, i, c).(freelist := s.freelist[1..]);
    if InLock(c) {
      ShapeIn(s, i);
      ShapeOk(s, i, c, s.holder, s.freelist[1..]);
      PendingIs(s, i);
      PendingIs(s', i);
    } else {
      ShapeOk(s, i, c, s.holder, s.freelist[1..]);
      PendingSame(s, i, c, s.freelist[1..]);
    }
    assert s.freelist == [s.freelist[0]] + s'.freelist;
    TakePartition(s, s', s.freelist[0]);
  }

  /** When the free list is empty and nothing is pending, every state is rented. */
  lemma AllRented(s: State, i: nat)
    requires Inv(s) && i < |s.clients| && s.clients[i].PopInside? && s.freelist == []
    ensures |s.mmaps| * s.config.StatesPerBlock() == |Rented(s.clients)| <= s.peak
  {
    hide Mapped, Config.States, Taken, Rented, Pending;
    PendingIs(s, i);
    assert Rented(s.clients) == multiset(s.config.States(s.mmaps));
  }

  /** A new block is mapped; all its states are pending. */
  lemma MapOk(s: State, i: nat, page: nat)
    requires Sound(s) && i < |s.clients| && s.clients[i].MapBlock? && Fresh(s.config, s.mmaps, Some(page))
    ensures var s' := Goto(s, i, Pushing(page, 0)).(mmaps := s.mmaps + [page]);
            Sound(s')
  {
    hide Partition, Config.States, Rented, Pending, Mapped, Shape, Fresh;
    RentedKept(s.clients, i, Pushing(page, 0));
    var s' := Goto(s, i, Pushing(page, 0)).(mmaps := s.mmaps + [page]);
    MapShape(s, i, page);
    MapMapped(s, page);
    PendingIs(s, i);
    PendingIs(s', i);
    var states := s.config.BlockStates(page);
    assert states[0..] == states;
    MapPartition(s, s', page);
  }

  lemma MapShape(s: State, i: nat, page: nat)
    requires Shape(s) && i < |s.clients| && s.clients[i].MapBlock?
    ensures Shape(Goto(s, i, Pushing(page, 0)).(mmaps := s.mmaps + [page]))
  {
    hide Config.StatesPerBlock;
  }

  lemma MapMapped(s: State, page: nat)
    requires Mapped(s.config, s.mmaps) && Fresh(s.config, s.mmaps, Some(page))
    ensures Mapped(s.config, s.mmaps + [page])
  {
    hide BlocksApart;
  }

  lemma StateTail(config: Config, page: nat, j: nat)
    requires config.Valid() && j < config.StatesPerBlock()
    ensures config.BlockStates(page)[j..] == [config.StateAt(page, j)] + config.BlockStates(page)[j + 1..]
  {
    hide Config.StateAt, Config.StatesPerBlock;
  }

  /** The next pending state is pushed. */
  lemma PushOk(s: State, i: nat)
    requires Sound(s) && i < |s.clients| && s.clients[i].Pushing? && s.clients[i].pushed < s.config.StatesPerBlock()
    ensures var c := s.clients[i];
            var s' := Goto(s, i, Pushing(c.page, c.pushed + 1))
                      .(freelist := s.freelist + [s.config.StateAt(c.page, c.pushed)]);
            Sound(s')
  {
    hide Partition, Config.States, Rented, Pending, Mapped, Shape, Config.StateAt, Config.BlockStates,
         Config.StatesPerBlock;
    var c := s.clients[i];
    var x := s.config.StateAt(c.page, c.pushed);
    var s' := Goto(s, i, Pushing(c.page, c.pushed + 1)).(freelist := s.freelist + [x]);
    RentedKept(s.clients, i, Pushing(c.page, c.pushed + 1));
    ShapeIn(s, i);
    ShapeOk(s, i, Pushing(c.page, c.pushed + 1), s.holder, s.freelist + [x]);
    PendingIs(s, i);
    PendingIs(s', i);
    StateTail(s.config, c.page, c.pushed);
    PushPartition(s, s', x);
  }

  lemma ShapeIn(s: State, i: nat)
    requires Shape(s) && i < |s.clients| && InLock(s.clients[i])
    ensures s.holder == Some(i)
  {
  }

  /** A state is recycled. */
  lemma DropOk(s: State, i: nat)
    requires Sound(s) && i < |s.clients| && s.clients[i].Holding?
    ensures var s' := Goto(s, i, Idle).(freelist := s.freelist + [s.clients[i].ptr]);
            Sound(s')
  {
    assert Taken(s.clients[i]) == multiset{s.clients[i].ptr} && Taken(Idle) == multiset{};
    hide Partition, Config.States, Rented, Pending, Mapped, Shape, Taken;
    var x := s.clients[i].ptr;
    var s' := Goto(s, i, Idle).(freelist := s.freelist + [x]);
    RentedLess(s.clients, i, Idle, x);
    ShapeOk(s, i, Idle, s.holder, s.freelist + [x]);
    PendingSame(s, i, Idle, s.freelist + [x]);
    ReturnPartition(s, s', x);
  }

  /** Every step keeps the invariant. */
  lemma NextOk(s: State, a: Action)
    requires Inv(s) && Enabled(s, a)
    ensures Inv(Next(s, a))
  {
    hide Sound, Rented, Config.StateAt;
    var i := a.client;
    assert s.config.Valid() by { ConfigValid(s); }
    match a
    case Begin(_) => QuietOk(s, i, PopOutside, s.holder); HigherOk(Goto(s, i, PopOutside));
    case Drop(_) => DropOk(s, i); HigherOk(Goto(s, i, Idle).(freelist := s.freelist + [s.clients[i].ptr]));
    case Step(_, mapped) => MoveOk(s, i, mapped); HigherOk(Move(s, i, mapped));
  }

  lemma ConfigValid(s: State)
    requires Sound(s)
    ensures s.config.Valid() && Mapped(s.config, s.mmaps) && Shape(s) && Partition(s)
  {
  }

  lemma MoveOk(s: State, i: nat, mapped: Option<nat>)
    requires Inv(s) && i < |s.clients| && s.config.Valid()
    requires s.clients[i].WaitLock? ==> s.holder.None?
    requires s.clients[i].MapBlock? ==> Fresh(s.config, s.mmaps, mapped)
    ensures Sound(Move(s, i, mapped))
  {
    hide Sound, Rented, Fresh;
    match s.clients[i]
    case Idle =>
    case Holding(_) =>
    case PopOutside =>
      if s.freelist == [] { QuietOk(s, i, WaitLock, s.holder); } else { PopOk(s, i, Holding(s.freelist[0])); }
    case WaitLock => QuietOk(s, i, PopInside, Some(i));
    case _ => MoveInside(s, i, mapped);
  }

  lemma MoveInside(s: State, i: nat, mapped: Option<nat>)
    requires Inv(s) && i < |s.clients| && InLock(s.clients[i]) && s.config.Valid()
    requires s.clients[i].MapBlock? ==> Fresh(s.config, s.mmaps, mapped)
    ensures Sound(Move(s, i, mapped))
  {
    hide Sound, Rented, Shape, Partition, Pending, Mapped, Fresh, Config.StateAt, Config.StatesPerBlock;
    ConfigValid(s);
    ShapeIn(s, i);
    match s.clients[i]
    case PopInside => PopInsideOk(s, i);
    case MapBlock => MappingOk(s, i, mapped);
    case Pushing(page, pushed) => PushingOk(s, i);
    case Leave(got) => QuietOk(s, i, if got.Some? then Holding(got.value) else Idle, None);
  }

  lemma MappingOk(s: State, i: nat, mapped: Option<nat>)
    requires Inv(s) && i < |s.clients| && s.clients[i].MapBlock? && s.config.Valid() && s.holder == Some(i)
    requires Fresh(s.config, s.mmaps, mapped)
    ensures Sound(Move(s, i, mapped))
  {
    hide Sound, Rented, Fresh;
    if mapped.None? { QuietOk(s, i, Leave(None), s.holder); } else { MapOk(s, i, mapped.value); }
  }

  lemma PushingOk(s: State, i: nat)
    requires Inv(s) && i < |s.clients| && s.clients[i].Pushing? && s.config.Valid() && s.holder == Some(i)
    ensures Sound(Move(s, i, None))
  {
    hide Sound, Rented, Shape, Config.StateAt, Config.StatesPerBlock;
    ConfigValid(s);
    PushedSoFar(s, i);
    if s.clients[i].pushed < s.config.StatesPerBlock() { PushOk(s, i); } else { QuietOk(s, i, PopInside, s.holder); }
  }

  lemma PopInsideOk(s: State, i: nat)
    requires Inv(s) && i < |s.clients| && s.clients[i].PopInside? && s.config.Valid() && s.holder == Some(i)
    ensures Sound(if s.freelist == [] then Goto(s, i, MapBlock)
                  else Goto(s, i, Leave(Some(s.freelist[0]))).(freelist := s.freelist[1..]))
  {
    hide Sound, Rented;
    if s.freelist == [] {
      AllRented(s, i);
      QuietOk(s, i, MapBlock, s.holder);
    } else {
      PopOk(s, i, Leave(Some(s.freelist[0])));
    }
  }

  lemma PushedSoFar(s: State, i: nat)
    requires Shape(s) && i < |s.clients| && s.clients[i].Pushing?
    ensures s.clients[i].pushed <= s.config.StatesPerBlock()
  {
  }
}
