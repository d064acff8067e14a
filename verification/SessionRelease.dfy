// How the network library shares and frees its session slots. Whoever wants to
// touch a session first raises the slot's ioCount, then looks at the release
// flag and at the id; whoever brings ioCount back to 0 tries to swing the
// packed pair (ioCount, flag) from (0, 0) to (0, 1), and only the one who
// succeeds runs the disconnect handler and returns the slot. Nothing is locked.
module SessionRelease {
  type Index = nat
  type Agent = nat
  type Id = nat

  // closed: the releaseFlag. id 0: cleared.
  datatype Slot = Slot(closed: bool, io: int, id: Id)

  // What one activity (an accept, a send, a pending socket operation, ...) is
  // about to do with a slot.
  datatype Pc =
    | Idle
    | Popped(i: Index)          // accept: has the index, raises ioCount next
    | Counted(i: Index)         // accept: opens the flag next
    | Opened(i: Index)          // accept: writes the id next
    | Probing(i: Index, id: Id) // has raised ioCount, reads the flag next
    | FlagSeen(i: Index, id: Id) // saw the flag open, compares the id next
    | Holding(i: Index, id: Id) // works on the session
    | Dropping(i: Index)        // was turned away, lowers ioCount next
    | Closing(i: Index)         // brought ioCount to 0, tries the exchange next
    | Releasing(i: Index)       // won the exchange, runs _OnDisConnect next
    | Cleaning(i: Index)        // clears the slot next
    | Returning(i: Index)       // pushes the index next
    | Tallying(i: Index)        // has pushed it, raises the stack's own counter next
  {
    // Busy with the slot; pushing its index was the last of it.
    predicate On(j: Index) {
      !Idle? && !Tallying? && i == j
    }

    // One of the counts in ioCount is this activity's.
    predicate Counts() {
      Counted? || Opened? || Probing? || FlagSeen? || Holding? || Dropping?
    }

    // The slot is this activity's alone.
    predicate Owns() {
      Popped? || Counted? || Opened? || Releasing? || Cleaning? || Returning?
    }
  }

  // free, size: the index stack and its own counter. released: the ids
  // _OnDisConnect was called with. The last two fields only record who owns a
  // slot and where an id was put; no step depends on them.
  datatype State = State(slots: seq<Slot>, free: seq<Index>, size: nat, agents: map<Agent, Pc>, nextId: Id,
                         released: seq<Id>, owner: map<Index, Agent>, home: map<Id, Index>)

  datatype Event =
    | Accept(a: Agent)
    | Probe(a: Agent, i: Index, id: Id)
    | Post(a: Agent, b: Agent)
    | Advance(a: Agent)

  // ---- steps -------------------------------------------------------------------------

  // The next step of an activity on its slot.
  function Move(s: Slot, pc: Pc, newId: Id): (Slot, Pc)
    requires !pc.Idle?
  {
    match pc
    case Popped(i) => (s.(io := s.io + 1), Counted(i))
    case Counted(i) => (s.(closed := false), Opened(i))
    case Opened(i) => (s.(id := newId), Holding(i, newId))
    case Probing(i, id) => (s, if s.closed then Dropping(i) else FlagSeen(i, id))
    case FlagSeen(i, id) => (s, if s.id != id then Dropping(i) else Holding(i, id))
    case Holding(i, _) => Lower(s, i)
    case Dropping(i) => Lower(s, i)
    case Closing(i) => if !s.closed && s.io == 0 then (s.(closed := true), Releasing(i)) else (s, Idle)
    case Releasing(i) => (s, Cleaning(i))
    case Cleaning(i) => (s.(id := 0), Returning(i))
    case Returning(i) => (s, Tallying(i))
    case Tallying(i) => (s, Idle)
  }

  // DecrementSessionIoCount.
  function Lower(s: Slot, i: Index): (Slot, Pc) {
    (s.(io := s.io - 1), if s.io - 1 == 0 then Closing(i) else Idle)
  }

  function PcOf(st: State, a: Agent): Pc {
    if a in st.agents then st.agents[a] else Idle
  }

  // The stack yields 0 when its counter is 0, which is looked at first.
  predicate Bare(st: State) {
    st.size == 0 || st.free == []
  }

  // The index an accept gets: the top of the stack, or 0.
  function Given(st: State): Index {
    if Bare(st) then 0 else st.free[|st.free| - 1]
  }

  predicate Enabled(st: State, e: Event) {
    match e
    case Accept(a) => a in st.agents && st.agents[a] == Idle && Given(st) < |st.slots|
    case Probe(a, i, id) => a in st.agents && st.agents[a] == Idle && i < |st.slots|
    case Post(a, b) =>
      && a in st.agents && b in st.agents && st.agents[a].Holding? && st.agents[b] == Idle
      && st.agents[a].i < |st.slots|
    case Advance(a) => a in st.agents && st.agents[a] != Idle && st.agents[a].i < |st.slots|
  }

  function Next(st: State, e: Event): State
    requires Enabled(st, e)
  {
    match e
    case Accept(a) =>
      var i := Given(st);
      st.(free := if Bare(st) then st.free else st.free[..|st.free| - 1],
          size := if Bare(st) then st.size else st.size - 1,
          agents := st.agents[a := Popped(i)], owner := st.owner[i := a])
    case Probe(a, i, id) =>
      st.(slots := st.slots[i := st.slots[i].(io := st.slots[i].io + 1)], agents := st.agents[a := Probing(i, id)])
    case Post(a, b) =>
      var pc := st.agents[a];
      st.(slots := st.slots[pc.i := st.slots[pc.i].(io := st.slots[pc.i].io + 1)], agents := st.agents[b := pc])
    case Advance(a) =>
      var pc := st.agents[a];
      var (s, pc') := Move(st.slots[pc.i], pc, st.nextId);
      State(st.slots[pc.i := s],
            if pc.Returning? then st.free + [pc.i] else st.free,
            if pc.Tallying? then st.size + 1 else st.size,
            st.agents[a := pc'],
            if pc.Opened? then st.nextId + 1 else st.nextId,
            if pc.Releasing? then st.released + [s.id] else st.released,
            if pc'.Owns() then st.owner[pc.i := a] else if pc.Owns() then st.owner - {pc.i} else st.owner,
            if pc.Opened? then st.home[st.nextId := pc.i] else st.home)
  }

  // ---- the invariant ---------------------------------------------------------------------

  // The activities counted in the slot's ioCount.
  function Counters(agents: map<Agent, Pc>, i: Index): set<Agent> {
    set a | a in agents && agents[a].On(i) && agents[a].Counts()
  }

  ghost predicate CountsOk(slots: seq<Slot>, agents: map<Agent, Pc>) {
    forall i :: 0 <= i < |slots| ==> slots[i].io == |Counters(agents, i)|
  }

  // Those who have pushed an index that is not counted yet.
  function Talliers(agents: map<Agent, Pc>): set<Agent> {
    set a | a in agents && agents[a].Tallying?
  }

  ghost predicate SizeOk(st: State) {
    st.size + |Talliers(st.agents)| == |st.free|
  }

  // What an activity knows about its slot.
  predicate Knows(s: Slot, pc: Pc) {
    match pc
    case Popped(_) => s.closed && s.id == 0
    case Counted(_) => s.closed && s.id == 0
    case Opened(_) => !s.closed && s.id == 0
    case FlagSeen(_, _) => !s.closed
    case Holding(_, id) => !s.closed && (id > 0 ==> s.id == id)
    case Releasing(_) => s.closed && s.id > 0
    case Cleaning(_) => s.closed && s.id > 0
    case Returning(_) => s.closed && s.id == 0
    case _ => true
  }

  ghost predicate AgentsOk(slots: seq<Slot>, agents: map<Agent, Pc>) {
    forall a :: a in agents && agents[a] != Idle ==> agents[a].i < |slots| && Knows(slots[agents[a].i], agents[a])
  }

  ghost predicate OwnersOk(agents: map<Agent, Pc>, owner: map<Index, Agent>) {
    && (forall i :: i in owner ==> owner[i] in agents && agents[owner[i]].On(i) && agents[owner[i]].Owns())
    && forall a :: a in agents && agents[a].Owns() ==> agents[a].i in owner && owner[agents[a].i] == a
  }

  // Every slot is in one of three conditions: free, owned, or open with an id.
  ghost predicate SlotOk(st: State, i: Index)
    requires i < |st.slots|
  {
    && (i in st.free ==> i !in st.owner && st.slots[i].closed && st.slots[i].id == 0)
    && (i !in st.free && i !in st.owner ==> !st.slots[i].closed && st.slots[i].id > 0)
  }

  ghost predicate FreeOk(st: State) {
    && (forall k :: 0 <= k < |st.free| ==> st.free[k] < |st.slots|)
    && (forall j, k :: 0 <= j < k < |st.free| ==> st.free[j] != st.free[k])
    && forall i :: 0 <= i < |st.slots| ==> SlotOk(st, i)
  }

  predicate CleaningSlot(st: State, i: Index) {
    i in st.owner && PcOf(st, st.owner[i]).Cleaning?
  }

  // The session has not been reported as disconnected yet.
  predicate Unreported(st: State, id: Id) {
    id in st.home && st.home[id] < |st.slots| && st.slots[st.home[id]].id == id && !CleaningSlot(st, st.home[id])
  }

  ghost predicate IdsOk(st: State) {
    HomesOk(st) && forall id :: ReportsOk(st, id)
  }

  ghost predicate HomesOk(st: State) {
    && st.nextId > 0
    && (forall id :: id in st.home <==> 0 < id < st.nextId)
    && forall i :: 0 <= i < |st.slots| && st.slots[i].id != 0 ==>
                     st.slots[i].id in st.home && st.home[st.slots[i].id] == i
  }

  ghost predicate ReportsOk(st: State, id: Id) {
    Reports(st, id) == if id in st.home && !Unreported(st, id) then 1 else 0
  }

  // How often the disconnect handler was called for the session.
  ghost function Reports(st: State, id: Id): nat {
    multiset(st.released)[id]
  }

  // An open slot without counts is about to be closed by somebody.
  ghost predicate CloserAround(st: State, i: Index)
    requires i < |st.slots|
  {
    !st.slots[i].closed && st.slots[i].io == 0 ==> exists a :: a in st.agents && st.agents[a] == Closing(i)
  }

  ghost predicate Inv(st: State) {
    && CountsOk(st.slots, st.agents) && AgentsOk(st.slots, st.agents) && OwnersOk(st.agents, st.owner)
    && FreeOk(st) && SizeOk(st) && IdsOk(st)
    && forall i :: 0 <= i < |st.slots| ==> CloserAround(st, i)
  }

  ghost predicate Init(st: State) {
    && (forall a :: a in st.agents ==> st.agents[a] == Idle)
    && (forall i :: 0 <= i < |st.slots| ==> st.slots[i] == Slot(true, 0, 0) && i in st.free)
    && (forall k :: 0 <= k < |st.free| ==> st.free[k] < |st.slots|)
    && (forall j, k :: 0 <= j < k < |st.free| ==> st.free[j] != st.free[k])
    && st.size == |st.free| && st.nextId == 1 && st.released == [] && st.owner == map[] && st.home == map[]
  }

  lemma InitInv(st: State)
    requires Init(st)
    ensures Inv(st)
  {
    assert Talliers(st.agents) == {};
  }

  // An accept finds the index stack's counter at 0.
  predicate Drained(st: State, e: Event) {
    e.Accept? && st.size == 0
  }

  // ---- the counts -----------------------------------------------------------------------------

  lemma CountersAfter(agents: map<Agent, Pc>, a: Agent, pc: Pc, i: Index)
    requires a in agents
    ensures |Counters(agents[a := pc], i)| == |Counters(agents, i)|
              - (if agents[a].On(i) && agents[a].Counts() then 1 else 0) + (if pc.On(i) && pc.Counts() then 1 else 0)
  {
    CountersWith(agents, a, i);
    CountersWith(agents[a := pc], a, i);
    assert agents[a := pc] - {a} == agents - {a};
  }

  lemma CountersWith(agents: map<Agent, Pc>, a: Agent, i: Index)
    requires a in agents
    ensures |Counters(agents, i)|
         == |Counters(agents - {a}, i)| + if agents[a].On(i) && agents[a].Counts() then 1 else 0
  {
    var others := Counters(agents - {a}, i);
    if agents[a].On(i) && agents[a].Counts() {
      assert Counters(agents, i) == others + {a};
    } else {
      assert Counters(agents, i) == others;
    }
  }

  lemma TalliersAfter(agents: map<Agent, Pc>, a: Agent, pc: Pc)
    requires a in agents
    ensures |Talliers(agents[a := pc])|
         == |Talliers(agents)| - (if agents[a].Tallying? then 1 else 0) + (if pc.Tallying? then 1 else 0)
  {
    TalliersWith(agents, a);
    TalliersWith(agents[a := pc], a);
    assert agents[a := pc] - {a} == agents - {a};
  }

  lemma TalliersWith(agents: map<Agent, Pc>, a: Agent)
    requires a in agents
    ensures |Talliers(agents)| == |Talliers(agents - {a})| + if agents[a].Tallying? then 1 else 0
  {
    var others := Talliers(agents - {a});
    if agents[a].Tallying? {
      assert Talliers(agents) == others + {a};
    } else {
      assert Talliers(agents) == others;
    }
  }

  lemma SizeStep(st: State, e: Event)
    requires Enabled(st, e) && SizeOk(st) && !Drained(st, e)
    ensures SizeOk(Next(st, e))
  {
    var st', a := Next(st, e), Mover(e);
    assert st'.agents == st.agents[a := st'.agents[a]];
    TalliersAfter(st.agents, a, st'.agents[a]);
  }

  // The agent whose state an event changes.
  function Mover(e: Event): Agent {
    match e
    case Post(_, b) => b
    case _ => e.a
  }

  lemma CountsStep(st: State, e: Event)
    requires Enabled(st, e) && CountsOk(st.slots, st.agents)
    ensures CountsOk(Next(st, e).slots, Next(st, e).agents)
  {
    var st', a := Next(st, e), Mover(e);
    assert st'.agents == st.agents[a := st'.agents[a]];
    forall i | 0 <= i < |st'.slots|
      ensures st'.slots[i].io == |Counters(st'.agents, i)|
    {
      CountersAfter(st.agents, a, st'.agents[a], i);
    }
  }

  // Nobody is counted in a slot whose ioCount is 0.
  lemma NobodyCounted(st: State, i: Index, a: Agent)
    requires CountsOk(st.slots, st.agents) && i < |st.slots| && st.slots[i].io == 0 && a in st.agents
    ensures !(st.agents[a].On(i) && st.agents[a].Counts())
  {
    assert a !in Counters(st.agents, i);
  }

  // ---- what the activities know stays true ---------------------------------------------------------

  // A step of one activity leaves true what another knows of the same slot:
  // what changes flag or id is done by the slot's owner, or with ioCount at 0.
  lemma OthersKnow(st: State, a: Agent, b: Agent)
    requires Inv(st) && Enabled(st, Advance(a)) && b in st.agents && b != a && st.agents[b].On(st.agents[a].i)
    ensures Knows(Move(st.slots[st.agents[a].i], st.agents[a], st.nextId).0, st.agents[b])
  {
    var i := st.agents[a].i;
    assert Knows(st.slots[i], st.agents[a]) && Knows(st.slots[i], st.agents[b]);
    if st.agents[a].Closing? && !st.slots[i].closed && st.slots[i].io == 0 {
      NobodyCounted(st, i, b);
    }
  }

  // The exchange succeeds only on a slot that is in use and has no owner: an
  // owner of an open slot would be counted.
  lemma ExchangeWins(st: State, a: Agent)
    requires Inv(st) && a in st.agents && st.agents[a].Closing?
    requires !st.slots[st.agents[a].i].closed && st.slots[st.agents[a].i].io == 0
    ensures st.agents[a].i !in st.owner && st.agents[a].i !in st.free && st.slots[st.agents[a].i].id > 0
  {
    var i := st.agents[a].i;
    assert SlotOk(st, i);
    if i in st.owner {
      assert Knows(st.slots[i], st.agents[st.owner[i]]);
      NobodyCounted(st, i, st.owner[i]);
    }
  }

  predicate Winning(st: State, e: Event)
    requires Enabled(st, e)
  {
    e.Advance? && st.agents[e.a].Closing? && !st.slots[st.agents[e.a].i].closed && st.slots[st.agents[e.a].i].io == 0
  }

  lemma OwnKnows(st: State, a: Agent)
    requires Inv(st) && Enabled(st, Advance(a))
    ensures var (s, pc) := Move(st.slots[st.agents[a].i], st.agents[a], st.nextId);
            Knows(s, pc) && (!pc.Idle? ==> pc.i == st.agents[a].i)
  {
    assert Knows(st.slots[st.agents[a].i], st.agents[a]);
    if Winning(st, Advance(a)) {
      ExchangeWins(st, a);
    }
  }

  lemma AgentsStep(st: State, e: Event)
    requires Inv(st) && Enabled(st, e) && !Drained(st, e)
    ensures AgentsOk(Next(st, e).slots, Next(st, e).agents)
  {
    match e
    case Accept(_) => assert SlotOk(st, Given(st));
    case Advance(a) => AgentsAdvance(st, a);
    case _ => AgentsCounted(st, e);
  }

  lemma AgentsCounted(st: State, e: Event)
    requires AgentsOk(st.slots, st.agents) && Enabled(st, e) && (e.Probe? || e.Post?)
    ensures AgentsOk(Next(st, e).slots, Next(st, e).agents)
  {
  }

  lemma AgentsAdvance(st: State, a: Agent)
    requires Inv(st) && Enabled(st, Advance(a))
    ensures AgentsOk(Next(st, Advance(a)).slots, Next(st, Advance(a)).agents)
  {
    var i := st.agents[a].i;
    OwnKnows(st, a);
    forall b | b in st.agents && b != a && st.agents[b].On(i)
      ensures Knows(Move(st.slots[i], st.agents[a], st.nextId).0, st.agents[b])
    {
      OthersKnow(st, a, b);
    }
    AgentsAfter(st.slots, st.agents, a, i, Move(st.slots[i], st.agents[a], st.nextId).0,
                Move(st.slots[i], st.agents[a], st.nextId).1);
  }

  lemma AgentsAfter(slots: seq<Slot>, agents: map<Agent, Pc>, a: Agent, i: Index, s: Slot, pc: Pc)
    requires AgentsOk(slots, agents) && i < |slots| && Knows(s, pc) && (!pc.Idle? ==> pc.i == i)
    requires forall b :: b in agents && b != a && agents[b].On(i) ==> Knows(s, agents[b])
    ensures AgentsOk(slots[i := s], agents[a := pc])
  {
  }

  // An owner map stays right when one activity gains, keeps or gives up a slot.
  lemma OwnersAfter(agents: map<Agent, Pc>, owner: map<Index, Agent>, a: Agent, pc: Pc, i: Index)
    requires OwnersOk(agents, owner) && a in agents && (agents[a].Owns() ==> agents[a].i == i)
    requires pc.Owns() ==> pc.i == i && (agents[a].Owns() || i !in owner)
    ensures OwnersOk(agents[a := pc],
                     if pc.Owns() then owner[i := a] else if agents[a].Owns() then owner - {i} else owner)
  {
  }

  lemma OwnersStep(st: State, e: Event)
    requires Inv(st) && Enabled(st, e) && !Drained(st, e)
    ensures OwnersOk(Next(st, e).agents, Next(st, e).owner)
  {
    match e
    case Accept(a) =>
      var i := Given(st);
      assert SlotOk(st, i);
      OwnersAfter(st.agents, st.owner, a, Popped(i), i);
    case Probe(a, i, id) => OwnersAfter(st.agents, st.owner, a, Probing(i, id), i);
    case Post(a, b) => OwnersAfter(st.agents, st.owner, b, st.agents[a], st.agents[a].i);
    case Advance(a) => OwnersAdvance(st, a);
  }

  lemma OwnersAdvance(st: State, a: Agent)
    requires Inv(st) && Enabled(st, Advance(a))
    ensures OwnersOk(Next(st, Advance(a)).agents, Next(st, Advance(a)).owner)
  {
    OwnKnows(st, a);
    if Winning(st, Advance(a)) {
      ExchangeWins(st, a);
    }
    OwnersAfter(st.agents, st.owner, a, Next(st, Advance(a)).agents[a], st.agents[a].i);
  }

  // ---- free, owned or in use ---------------------------------------------------------------------

  lemma FreeStep(st: State, e: Event)
    requires Inv(st) && Enabled(st, e) && !Drained(st, e)
    ensures FreeOk(Next(st, e))
  {
    var st' := Next(st, e);
    forall i | 0 <= i < |st'.slots|
      ensures SlotOk(st', i)
    {
      assert SlotOk(st, i);
      match e
      case Accept(a) => PoppedSlot(st, i);
      case Advance(a) => AdvancedSlot(st, a, i);
      case _ =>
    }
    if e.Advance? && st.agents[e.a].Returning? {
      assert SlotOk(st, st.agents[e.a].i);
    }
  }

  lemma PoppedSlot(st: State, i: Index)
    requires st.free != [] && forall j, k :: 0 <= j < k < |st.free| ==> st.free[j] != st.free[k]
    ensures i in st.free[..|st.free| - 1] <==> i in st.free && i != st.free[|st.free| - 1]
  {
    assert st.free == st.free[..|st.free| - 1] + [st.free[|st.free| - 1]];
  }

  lemma AdvancedSlot(st: State, a: Agent, i: Index)
    requires Inv(st) && Enabled(st, Advance(a)) && i < |st.slots|
    ensures SlotOk(Next(st, Advance(a)), i)
  {
    assert SlotOk(st, i);
    if st.agents[a].i == i {
      if st.agents[a].Owns() {
        OwnedSlot(st, a);
      } else if Winning(st, Advance(a)) {
        ExchangeWins(st, a);
      } else {
        VisitedSlot(st, a);
      }
    }
  }

  lemma OwnedSlot(st: State, a: Agent)
    requires Inv(st) && Enabled(st, Advance(a)) && st.agents[a].Owns()
    ensures SlotOk(Next(st, Advance(a)), st.agents[a].i)
  {
    assert Knows(st.slots[st.agents[a].i], st.agents[a]);
    assert SlotOk(st, st.agents[a].i);
  }

  lemma VisitedSlot(st: State, a: Agent)
    requires Enabled(st, Advance(a)) && !st.agents[a].Owns() && !Winning(st, Advance(a)) && SlotOk(st, st.agents[a].i)
    ensures SlotOk(Next(st, Advance(a)), st.agents[a].i)
  {
  }

  // ---- every session is reported once ------------------------------------------------------------

  lemma CleaningAfter(st: State, e: Event, i: Index)
    requires Inv(st) && Enabled(st, e) && !Drained(st, e) && i < |st.slots|
    ensures CleaningSlot(Next(st, e), i)
         == if e.Advance? && st.agents[e.a].On(i) && st.agents[e.a].Owns() then st.agents[e.a].Releasing?
            else CleaningSlot(st, i)
  {
    match e
    case Accept(a) =>
      assert SlotOk(st, i);
      if i != Given(st) {
        OwnerStays(st, e, i);
      }
    case Advance(a) => CleaningAdvance(st, a, i);
    case _ => OwnerStays(st, e, i);
  }

  lemma CleaningAdvance(st: State, a: Agent, i: Index)
    requires Inv(st) && Enabled(st, Advance(a)) && i < |st.slots|
    ensures CleaningSlot(Next(st, Advance(a)), i)
         == if st.agents[a].On(i) && st.agents[a].Owns() then st.agents[a].Releasing? else CleaningSlot(st, i)
  {
    if !st.agents[a].On(i) || !st.agents[a].Owns() {
      if Winning(st, Advance(a)) && st.agents[a].i == i {
        ExchangeWins(st, a);
      } else {
        OwnerStays(st, Advance(a), i);
      }
    }
  }

  // A step of somebody else leaves the slot's owner as it is.
  lemma OwnerStays(st: State, e: Event, i: Index)
    requires OwnersOk(st.agents, st.owner) && Enabled(st, e)
    requires e.Accept? ==> i != Given(st)
    requires e.Advance? && st.agents[e.a].On(i) ==> !st.agents[e.a].Owns() && !Winning(st, e)
    ensures CleaningSlot(Next(st, e), i) == CleaningSlot(st, i)
  {
  }

  lemma IdAfter(st: State, e: Event, i: Index)
    requires Enabled(st, e) && i < |st.slots|
    ensures Next(st, e).slots[i].id
         == if e.Advance? && st.agents[e.a] == Opened(i) then st.nextId
            else if e.Advance? && st.agents[e.a] == Cleaning(i) then 0 else st.slots[i].id
  {
  }

  // The sessions that are reported or still to be reported, before and after.
  lemma UnreportedAfter(st: State, e: Event, id: Id)
    requires Inv(st) && Enabled(st, e) && !Drained(st, e) && id in st.home
    ensures Unreported(Next(st, e), id)
       <==> Unreported(st, id) && !(e.Advance? && st.agents[e.a] == Releasing(st.home[id]))
  {
    var i := st.home[id];
    if i < |st.slots| {
      IdAfter(st, e, i);
      CleaningAfter(st, e, i);
      if e.Advance? && st.agents[e.a].On(i) {
        assert Knows(st.slots[i], st.agents[e.a]);
      }
    }
  }

  lemma IdsStep(st: State, e: Event)
    requires Inv(st) && Enabled(st, e) && !Drained(st, e)
    ensures IdsOk(Next(st, e))
  {
    HomesStep(st, e);
    forall id
      ensures ReportsOk(Next(st, e), id)
    {
      ReportsStep(st, e, id);
    }
  }

  lemma HomesStep(st: State, e: Event)
    requires HomesOk(st) && Enabled(st, e)
    ensures HomesOk(Next(st, e))
  {
  }

  lemma ReportsStep(st: State, e: Event, id: Id)
    requires Inv(st) && Enabled(st, e) && !Drained(st, e)
    ensures ReportsOk(Next(st, e), id)
  {
    assert ReportsOk(st, id);
    if id in st.home {
      UnreportedAfter(st, e, id);
    }
    if e.Advance? {
      var i := st.agents[e.a].i;
      assert Knows(st.slots[i], st.agents[e.a]);
      if st.agents[e.a].Opened? && id == st.nextId {
        CleaningAfter(st, e, i);
      }
    }
  }

  // ---- nobody is forgotten --------------------------------------------------------------------------

  lemma CloserStep(st: State, e: Event, i: Index)
    requires Inv(st) && Enabled(st, e) && i < |st.slots|
    ensures CloserAround(Next(st, e), i)
  {
    assert CloserAround(st, i);
    CountsStep(st, e);
    var st' := Next(st, e);
    if !st'.slots[i].closed && st'.slots[i].io == 0 {
      if e.Advance? && st.agents[e.a].On(i) {
        CloserAdvance(st, e.a);
      } else {
        assert st'.slots[i] == st.slots[i];
        var b :| b in st.agents && st.agents[b] == Closing(i);
        assert st'.agents[b] == Closing(i);
      }
    }
  }

  lemma CloserAdvance(st: State, a: Agent)
    requires Inv(st) && Enabled(st, Advance(a)) && !st.agents[a].Tallying?
    requires !Next(st, Advance(a)).slots[st.agents[a].i].closed && Next(st, Advance(a)).slots[st.agents[a].i].io == 0
    ensures exists b :: b in Next(st, Advance(a)).agents && Next(st, Advance(a)).agents[b] == Closing(st.agents[a].i)
  {
    var i, st' := st.agents[a].i, Next(st, Advance(a));
    CountsStep(st, Advance(a));
    NobodyCounted(st', i, a);
    assert Knows(st.slots[i], st.agents[a]);
    assert st'.agents[a] == Closing(i);
  }

  lemma StepInv(st: State, e: Event)
    requires Inv(st) && Enabled(st, e) && !Drained(st, e)
    ensures Inv(Next(st, e))
  {
    CountsStep(st, e);
    AgentsStep(st, e);
    OwnersStep(st, e);
    FreeStep(st, e);
    SizeStep(st, e);
    IdsStep(st, e);
    forall i | 0 <= i < |Next(st, e).slots|
      ensures CloserAround(Next(st, e), i)
    {
      CloserStep(st, e, i);
    }
  }

  // ---- whole runs --------------------------------------------------------------------------------------

  ghost predicate Possible(st: State, events: seq<Event>)
    decreases |events|
  {
    events == [] || (Enabled(st, events[0]) && Possible(Next(st, events[0]), events[1..]))
  }

  function Run(st: State, events: seq<Event>): State
    requires Possible(st, events)
    decreases |events|
  {
    if events == [] then st else Run(Next(st, events[0]), events[1..])
  }

  // No accept of the run finds the index stack's counter at 0.
  ghost predicate Stocked(st: State, events: seq<Event>)
    requires Possible(st, events)
    decreases |events|
  {
    events != [] ==> !Drained(st, events[0]) && Stocked(Next(st, events[0]), events[1..])
  }

  lemma {:induction false} RunInv(st: State, events: seq<Event>)
    requires Inv(st) && Possible(st, events) && Stocked(st, events)
    ensures Inv(Run(st, events))
    decreases |events|
  {
    if events != [] {
      StepInv(st, events[0]);
      RunInv(Next(st, events[0]), events[1..]);
    }
  }

  // The states some interleaving of the threads leads to while the stack has
  // counted indices.
  ghost predicate Reachable(st: State) {
    exists start, events :: Init(start) && Possible(start, events) && Stocked(start, events) && Run(start, events) == st
  }

  lemma ReachableInv(st: State)
    requires Reachable(st)
    ensures Inv(st)
  {
    var start, events :| Init(start) && Possible(start, events) && Stocked(start, events) && Run(start, events) == st;
    InitInv(start);
    RunInv(start, events);
  }

  // The disconnect handler is called at most once for a session, and has been
  // called exactly if the session is out of its slot or being cleaned out.
  lemma ReportedOnce(st: State, id: Id)
    requires Reachable(st)
    ensures Reports(st, id) <= 1
    ensures Reports(st, id) == 1 <==> 0 < id < st.nextId && !Unreported(st, id)
  {
    ReachableInv(st);
    assert ReportsOk(st, id);
  }

  // Whoever passed the flag and the id check has the very session it asked
  // for, open, and not reported as disconnected, until it lowers the count. If
  // it asked for id 0, whatever session is then opened in the slot is not
  // reported before that.
  lemma HeldSessionIsThere(st: State, a: Agent)
    requires Reachable(st) && a in st.agents && st.agents[a].Holding?
    ensures var Holding(i, id) := st.agents[a];
            && i < |st.slots| && !st.slots[i].closed && st.slots[i].io > 0
            && (id > 0 ==> st.slots[i].id == id) && Reports(st, id) == 0
            && Reports(st, st.slots[i].id) == 0
  {
    ReachableInv(st);
    var i, id := st.agents[a].i, st.agents[a].id;
    assert Knows(st.slots[i], st.agents[a]);
    assert ReportsOk(st, id) && ReportsOk(st, st.slots[i].id);
    if st.slots[i].io == 0 {
      NobodyCounted(st, i, a);
    }
    assert i in st.owner ==> Knows(st.slots[i], st.agents[st.owner[i]]);
  }

  // Id 0, which SendToAllSessions reads from a cleared slot, passes both checks
  // exactly if an accept is between opening the slot and writing its id.
  lemma ZeroIdPassesWhileOpening(st: State, a: Agent)
    requires Reachable(st) && a in st.agents && st.agents[a].FlagSeen? && st.agents[a].id == 0
    ensures Enabled(st, Advance(a))
    ensures Next(st, Advance(a)).agents[a].Holding?
       <==> exists b :: b in st.agents && st.agents[b] == Opened(st.agents[a].i)
  {
    ReachableInv(st);
    var i := st.agents[a].i;
    assert Knows(st.slots[i], st.agents[a]) && SlotOk(st, i);
    if st.slots[i].id == 0 {
      assert Knows(st.slots[i], st.agents[st.owner[i]]);
      assert st.agents[st.owner[i]] == Opened(i);
    }
    forall b | b in st.agents && st.agents[b] == Opened(i)
      ensures st.slots[i].id == 0
    {
      assert Knows(st.slots[i], st.agents[b]);
    }
  }

  // While the handler of a session is due or running nobody works on it.
  lemma HandlerRunsAlone(st: State, a: Agent, b: Agent)
    requires Reachable(st) && a in st.agents && b in st.agents
    requires (st.agents[a].Releasing? || st.agents[a].Cleaning?) && st.agents[b].Holding?
    ensures st.agents[a].i != st.agents[b].i && st.agents[a].i < |st.slots|
    ensures st.slots[st.agents[a].i].id != st.agents[b].id
  {
    ReachableInv(st);
    assert Knows(st.slots[st.agents[a].i], st.agents[a]) && Knows(st.slots[st.agents[b].i], st.agents[b]);
  }

  predicate OwnsIndex(st: State, a: Agent, i: Index) {
    a in st.agents && st.agents[a].On(i) && st.agents[a].Owns()
  }

  predicate HoldsIndex(st: State, a: Agent, i: Index) {
    a in st.agents && st.agents[a].On(i) && st.agents[a].Holding?
  }

  // No index is ever given out twice or lost: each is either once on the
  // stack, or taken by one activity that opens or closes it, or in use.
  lemma IndexInOnePlace(st: State, i: Index)
    requires Reachable(st) && i < |st.slots|
    ensures multiset(st.free)[i] <= 1
    ensures i in st.free ==> forall a :: !OwnsIndex(st, a, i) && !HoldsIndex(st, a, i)
    ensures forall a, b :: OwnsIndex(st, a, i) && OwnsIndex(st, b, i) ==> a == b
    ensures i !in st.free && (forall a :: !OwnsIndex(st, a, i)) ==>
              !st.slots[i].closed && 0 < st.slots[i].id < st.nextId
  {
    ReachableInv(st);
    assert SlotOk(st, i);
    assert i in st.owner ==> OwnsIndex(st, st.owner[i], i);
    DistinctCount(st.free, i);
  }

  lemma {:induction false} DistinctCount(s: seq<Index>, i: Index)
    requires forall j, k :: 0 <= j < k < |s| ==> s[j] != s[k]
    ensures multiset(s)[i] <= 1
  {
    if s != [] {
      DistinctCount(s[1..], i);
      assert s == [s[0]] + s[1..];
      if s[0] == i {
        assert i !in s[1..];
      }
    }
  }

  // Whoever opens or closes a slot has it alone: nobody else does, it is not on
  // the stack, and no session is in use there.
  ghost predicate Exclusive(st: State) {
    && (forall a, b, i :: OwnsIndex(st, a, i) && OwnsIndex(st, b, i) ==> a == b)
    && forall a, i :: OwnsIndex(st, a, i) ==> i !in st.free && !InUse(st, i)
  }

  predicate InUse(st: State, i: Index) {
    i < |st.slots| && !st.slots[i].closed && st.slots[i].id > 0
  }

  lemma ExclusiveWhileInv(st: State)
    requires Inv(st)
    ensures Exclusive(st)
  {
    forall a: Agent, i: Index | OwnsIndex(st, a, i)
      ensures i !in st.free && !InUse(st, i)
    {
      assert Knows(st.slots[i], st.agents[a]) && SlotOk(st, i);
    }
  }

  lemma DrainedIsShared(st: State, e: Event)
    requires Inv(st) && Enabled(st, e) && Drained(st, e)
    ensures !Exclusive(Next(st, e))
  {
    assert SlotOk(st, 0);
    assert OwnsIndex(Next(st, e), e.a, 0);
    if 0 in st.owner {
      assert OwnsIndex(Next(st, e), st.owner[0], 0) && st.owner[0] != e.a;
    } else if 0 in st.free {
      assert 0 in Next(st, e).free;
    } else {
      assert InUse(Next(st, e), 0);
    }
  }

  ghost predicate AlwaysExclusive(st: State, events: seq<Event>)
    requires Possible(st, events)
    decreases |events|
  {
    Exclusive(st) && (events != [] ==> AlwaysExclusive(Next(st, events[0]), events[1..]))
  }

  // Over a whole run slots are never shared if and only if every accept finds
  // the stack's counter above 0.
  lemma SharedExactlyWhenDrained(start: State, events: seq<Event>)
    requires Init(start) && Possible(start, events)
    ensures AlwaysExclusive(start, events) <==> Stocked(start, events)
  {
    InitInv(start);
    SharedFrom(start, events);
  }

  lemma {:induction false} SharedFrom(st: State, events: seq<Event>)
    requires Inv(st) && Possible(st, events)
    ensures AlwaysExclusive(st, events) <==> Stocked(st, events)
    decreases |events|
  {
    ExclusiveWhileInv(st);
    if events != [] {
      if Drained(st, events[0]) {
        DrainedIsShared(st, events[0]);
      } else {
        StepInv(st, events[0]);
        SharedFrom(Next(st, events[0]), events[1..]);
      }
    }
  }

  // A session nobody uses any more is not forgotten: somebody is about to try
  // the exchange on it, and if that is the next step it succeeds.
  lemma UnusedSessionIsClosed(st: State, i: Index) returns (a: Agent)
    requires Reachable(st) && i < |st.slots| && !st.slots[i].closed && st.slots[i].io == 0
    ensures a in st.agents && st.agents[a] == Closing(i) && Enabled(st, Advance(a))
    ensures Next(st, Advance(a)).agents[a] == Releasing(i) && Next(st, Advance(a)).slots[i].closed
  {
    ReachableInv(st);
    assert CloserAround(st, i);
    a :| a in st.agents && st.agents[a] == Closing(i);
  }

  // Nobody ever waits for another: an activity under way can always go on.
  lemma NobodyWaits(st: State, a: Agent)
    requires Reachable(st) && a in st.agents && st.agents[a] != Idle
    ensures Enabled(st, Advance(a))
  {
    ReachableInv(st);
  }

  // ---- what one activity gets done ---------------------------------------------------------------

  // Steps left at most until it is idle again.
  function Remaining(pc: Pc): nat {
    match pc
    case Popped(_) => 9
    case Counted(_) => 8
    case Opened(_) => 7
    case Probing(_, _) => 8
    case FlagSeen(_, _) => 7
    case Holding(_, _) => 6
    case Dropping(_) => 6
    case Closing(_) => 5
    case Releasing(_) => 4
    case Cleaning(_) => 3
    case Returning(_) => 2
    case Tallying(_) => 1
    case Idle => 0
  }

  // Every step brings its own activity nearer to its end and leaves the others
  // where they are, so an activity takes at most nine.
  lemma StepsFinish(st: State, a: Agent)
    requires Enabled(st, Advance(a))
    ensures var after := Next(st, Advance(a)).agents;
            && after.Keys == st.agents.Keys && Remaining(after[a]) < Remaining(st.agents[a]) <= 9
            && forall b :: b in st.agents && b != a ==> after[b] == st.agents[b]
  {
  }

  predicate IdleAgent(st: State, a: Agent) {
    a in st.agents && st.agents[a] == Idle
  }

  // The events are steps of others.
  predicate OthersOnly(a: Agent, events: seq<Event>) {
    forall e :: e in events ==> Mover(e) != a
  }

  lemma {:induction false} LeftAlone(st: State, a: Agent, events: seq<Event>)
    requires Possible(st, events) && OthersOnly(a, events) && a in st.agents
    ensures Run(st, events).agents.Keys == st.agents.Keys && |Run(st, events).slots| == |st.slots|
    ensures Run(st, events).agents[a] == st.agents[a]
    decreases |events|
  {
    if events != [] {
      assert events[0] in events;
      LeftAlone(Next(st, events[0]), a, events[1..]);
    }
  }

  // Anybody may ask for any id in any slot. Whatever the others do meanwhile,
  // before it reads the flag and between its reading the flag and the id: it
  // gets to hold the session if and only if the slot was open when it read the
  // flag and showed the id when it read the id; otherwise it is turned away.
  lemma ProbeDecided(st: State, a: Agent, i: Index, id: Id, before: seq<Event>, between: seq<Event>)
    requires IdleAgent(st, a) && i < |st.slots| && OthersOnly(a, before) && OthersOnly(a, between)
    ensures Enabled(st, Probe(a, i, id))
    ensures Possible(Next(st, Probe(a, i, id)), before) ==>
              var s1 := Run(Next(st, Probe(a, i, id)), before);
              && i < |s1.slots| && Enabled(s1, Advance(a))
              && (s1.slots[i].closed ==> Next(s1, Advance(a)).agents[a] == Dropping(i))
              && (!s1.slots[i].closed && Possible(Next(s1, Advance(a)), between) ==>
                    var s2 := Run(Next(s1, Advance(a)), between);
                    && i < |s2.slots| && Enabled(s2, Advance(a))
                    && Next(s2, Advance(a)).agents[a] == if s2.slots[i].id == id then Holding(i, id) else Dropping(i))
  {
    var s0 := Next(st, Probe(a, i, id));
    if Possible(s0, before) {
      LeftAlone(s0, a, before);
      var s1 := Run(s0, before);
      if !s1.slots[i].closed && Possible(Next(s1, Advance(a)), between) {
        LeftAlone(Next(s1, Advance(a)), a, between);
      }
    }
  }

  // The events are possible in turn and lead to that state.
  ghost predicate Leads(st: State, events: seq<Event>, to: State) {
    Possible(st, events) && Run(st, events) == to
  }

  lemma LeadsFirst(st: State, e: Event, events: seq<Event>, to: State)
    requires Enabled(st, e) && Leads(Next(st, e), events, to)
    ensures Leads(st, [e] + events, to)
  {
    assert ([e] + events)[1..] == events;
  }

  lemma {:induction false} LeadsOn(a: State, first: seq<Event>, b: State, second: seq<Event>, c: State)
    requires Leads(a, first, b) && Leads(b, second, c)
    ensures Leads(a, first + second, c)
    decreases |first|
  {
    if first == [] {
      assert first + second == second;
    } else {
      LeadsOn(Next(a, first[0]), first[1..], b, second, c);
      assert (first + second)[1..] == first[1..] + second;
    }
  }

  lemma TwoSteps(st: State, a: Agent) returns (to: State)
    requires Enabled(st, Advance(a)) && Enabled(Next(st, Advance(a)), Advance(a))
    ensures to == Next(Next(st, Advance(a)), Advance(a)) && Leads(st, [Advance(a), Advance(a)], to)
  {
    to := Next(Next(st, Advance(a)), Advance(a));
    LeadsFirst(Next(st, Advance(a)), Advance(a), [], to);
    LeadsFirst(st, Advance(a), [Advance(a)], to);
  }

  lemma ThreeSteps(st: State, a: Agent) returns (to: State)
    requires Enabled(st, Advance(a)) && Enabled(Next(st, Advance(a)), Advance(a))
    requires Enabled(Next(Next(st, Advance(a)), Advance(a)), Advance(a))
    ensures to == Next(Next(Next(st, Advance(a)), Advance(a)), Advance(a))
    ensures Leads(st, [Advance(a), Advance(a), Advance(a)], to)
  {
    to := TwoSteps(Next(st, Advance(a)), a);
    LeadsFirst(st, Advance(a), [Advance(a), Advance(a)], to);
  }

  // So a caller who asks an open slot for the id it shows, and is not disturbed,
  // holds the session after two steps.
  lemma OpenSessionIsHeld(st: State, a: Agent, i: Index) returns (to: State)
    requires IdleAgent(st, a) && i < |st.slots| && !st.slots[i].closed
    ensures Leads(st, [Probe(a, i, st.slots[i].id)] + [Advance(a), Advance(a)], to)
    ensures to.agents == st.agents[a := Holding(i, st.slots[i].id)]
    ensures to.slots == st.slots[i := st.slots[i].(io := st.slots[i].io + 1)]
  {
    var id := st.slots[i].id;
    var s1 := Next(st, Probe(a, i, id));
    to := TwoSteps(s1, a);
    LeadsFirst(st, Probe(a, i, id), [Advance(a), Advance(a)], to);
  }

  // A socket operation started by a holder holds the same session, and is
  // counted.
  lemma PostedHolds(st: State, a: Agent, b: Agent)
    requires Reachable(st) && IdleAgent(st, b) && a in st.agents && st.agents[a].Holding?
    ensures Enabled(st, Post(a, b))
    ensures var st' := Next(st, Post(a, b)); var i := st.agents[a].i;
            && st'.agents == st.agents[b := st.agents[a]] && i < |st.slots|
            && st'.slots == st.slots[i := st.slots[i].(io := st.slots[i].io + 1)]
  {
    ReachableInv(st);
  }

  function Steps(a: Agent): seq<Event> {
    [Advance(a), Advance(a), Advance(a)]
  }

  // An accept that finds the stack's counter above 0 opens the slot on top of
  // the stack for a session with the next id, and is its first holder.
  lemma AcceptOpens(st: State, a: Agent, i: Index) returns (to: State)
    requires IdleAgent(st, a) && st.size > 0 && st.free != [] && i == st.free[|st.free| - 1] < |st.slots|
    ensures Leads(st, [Accept(a)] + Steps(a), to)
    ensures to.slots == st.slots[i := Slot(false, st.slots[i].io + 1, st.nextId)] && to.nextId == st.nextId + 1
    ensures to.agents == st.agents[a := Holding(i, st.nextId)] && to.released == st.released
    ensures st.free == to.free + [i] && to.size == st.size - 1
  {
    to := ThreeSteps(Next(st, Accept(a)), a);
    LeadsFirst(st, Accept(a), Steps(a), to);
  }

  // Whoever lowers the count of an open slot from 1 closes the session, holder
  // or not, if nobody comes in between: the handler is called with its id, the
  // slot is cleared, and its index is back on top of the stack and counted.
  lemma LastOneCloses(st: State, a: Agent, i: Index) returns (to: State)
    requires a in st.agents && (st.agents[a] == Dropping(i) || (st.agents[a].Holding? && st.agents[a].i == i))
    requires i < |st.slots| && !st.slots[i].closed && st.slots[i].io == 1
    ensures Leads(st, Steps(a) + Steps(a), to)
    ensures to.slots == st.slots[i := Slot(true, 0, 0)] && to.agents == st.agents[a := Idle]
    ensures to.released == st.released + [st.slots[i].id] && to.nextId == st.nextId
    ensures to.free == st.free + [i] && to.size == st.size + 1
  {
    var mid := SlotTaken(st, a, i);
    to := IndexReturned(mid, a, i);
    LeadsOn(st, Steps(a), mid, Steps(a), to);
  }

  lemma SlotTaken(st: State, a: Agent, i: Index) returns (to: State)
    requires a in st.agents && (st.agents[a] == Dropping(i) || (st.agents[a].Holding? && st.agents[a].i == i))
    requires i < |st.slots| && !st.slots[i].closed && st.slots[i].io == 1
    ensures Leads(st, Steps(a), to)
    ensures to.slots == st.slots[i := Slot(true, 0, st.slots[i].id)] && to.agents == st.agents[a := Cleaning(i)]
    ensures to.released == st.released + [st.slots[i].id] && to.nextId == st.nextId
    ensures to.free == st.free && to.size == st.size
  {
    to := ThreeSteps(st, a);
  }

  lemma IndexReturned(st: State, a: Agent, i: Index) returns (to: State)
    requires a in st.agents && st.agents[a] == Cleaning(i) && i < |st.slots|
    ensures Leads(st, Steps(a), to)
    ensures to.slots == st.slots[i := st.slots[i].(id := 0)] && to.agents == st.agents[a := Idle]
    ensures to.released == st.released && to.nextId == st.nextId && to.free == st.free + [i] && to.size == st.size + 1
  {
    to := ThreeSteps(st, a);
  }

  // If somebody does come in between, or the slot is closed already, the
  // exchange changes nothing and the activity is done.
  lemma ExchangeDecided(st: State, a: Agent, i: Index)
    requires a in st.agents && st.agents[a] == Closing(i) && i < |st.slots|
    ensures Enabled(st, Advance(a))
    ensures var to := Next(st, Advance(a));
            if st.slots[i].closed || st.slots[i].io != 0 then
              to.slots == st.slots && to.agents == st.agents[a := Idle] && to.free == st.free
            else to.slots[i].closed && to.agents == st.agents[a := Releasing(i)]
  {
  }

  // Whoever leaves a session that others still hold, and whoever was turned
  // away from one, lowers the count and is done.
  lemma OthersStillHold(st: State, a: Agent)
    requires a in st.agents && (st.agents[a].Holding? || st.agents[a].Dropping?) && st.agents[a].i < |st.slots|
    requires st.slots[st.agents[a].i].io > 1
    ensures Enabled(st, Advance(a))
    ensures var to := Next(st, Advance(a)); var i := st.agents[a].i;
            && to.slots == st.slots[i := st.slots[i].(io := st.slots[i].io - 1)] && to.agents == st.agents[a := Idle]
            && to.released == st.released && to.free == st.free
  {
  }
}
