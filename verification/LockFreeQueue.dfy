// The lock-free queue between the socket threads and the content threads. A
// linked list starts at a dummy node; head and tail are words that carry a
// stamp and are only changed by compare-and-swap; a counter of the elements is
// lowered in advance by whoever dequeues. Nodes are used again, also by other
// queues that share the pool. A stamp is the low 17 bits of a number that a
// counter gives out once, so words with different numbers can look the same.
module LockFreeQueue {
  type Addr = nat
  type Agent = nat
  type Val = nat

  // End: the queue's own address, which marks the last node.
  datatype Link = End | To(addr: Addr)

  // A node's address together with the number it was stamped with.
  datatype Word = Word(addr: Addr, number: nat)

  const TAGS := 0x2_0000

  // What a compare-and-swap can tell: the address and 17 bits of the number.
  predicate Same(w: Word, v: Word) {
    w.addr == v.addr && w.number % TAGS == v.number % TAGS
  }

  datatype Pc =
    | Idle
    // Enqueue of `node`.
    | Filled(node: Addr)                         // reads the tail next
    | TailSeen(node: Addr, t: Word)              // reads the tail's _next next
    | NextSeen(node: Addr, t: Word, nx: Link)    // helps the tail on, or links
    | Linked(node: Addr, t: Word)                // raises the size next
    | Counted(node: Addr, t: Word)               // swings the tail next
    // Dequeue.
    | Reserved                                   // has lowered the size; reads the head next
    | HeadRead(h: Word)                          // reads the tail next
    | TailRead(h: Word, t: Word)                 // reads the head's _next next
    | HeadNextRead(h: Word, t: Word, nx: Link)   // reads the tail's _next next
    | BothRead(h: Word, t: Word, nx: Link, tnx: Link)
    | DataRead(h: Word, first: Addr, val: Val)    // swings the head next
    | Failing                                    // found the size below 0; raises it next
  {
    predicate Reserving() {
      Reserved? || HeadRead? || TailRead? || HeadNextRead? || BothRead? || DataRead?
    }

    // Accounts for one between the size and the number of elements.
    predicate Owes() {
      Reserving() || Linked? || Failing?
    }

    predicate Preparing() {
      Filled? || TailSeen? || NextSeen?
    }
  }

  datatype Place = InQueue | Free | With(a: Agent)

  // The last fields are recorded for the proof: the numbers put into head or
  // tail so far, the nodes from the head on, the position of the tail among
  // them, who has each node, and the values in the order in which they were
  // linked and handed out.
  datatype State = State(head: Word, tail: Word, size: int, next: map<Addr, Link>, data: map<Addr, Val>,
                         agents: map<Agent, Pc>,
                         used: set<nat>, chain: seq<Addr>, tailAt: nat, place: map<Addr, Place>,
                         entered: seq<Val>, left: seq<Val>)

  // Advance: one step, with the number for a word it may put into head or tail;
  // the thread drew it some time before. Scribble: another queue that has got
  // the freed node from the pool writes it.
  datatype Event =
    | StartEnqueue(a: Agent, node: Addr, val: Val)
    | StartDequeue(a: Agent)
    | Advance(a: Agent, k: nat)
    | Scribble(node: Addr, x: Addr, val: Val)

  function NextOf(st: State, n: Addr): Link {
    if n in st.next then st.next[n] else End
  }

  function DataOf(st: State, n: Addr): Val {
    if n in st.data then st.data[n] else 0
  }

  predicate IdleAgent(st: State, a: Agent) {
    a in st.agents && st.agents[a] == Idle
  }

  // The pool gives a freed node or a new one.
  predicate Enabled(st: State, e: Event) {
    match e
    case StartEnqueue(a, node, _) => IdleAgent(st, a) && (node in st.place ==> st.place[node] == Free)
    case StartDequeue(a) => IdleAgent(st, a)
    case Advance(a, k) => a in st.agents && st.agents[a] != Idle && k !in st.used
    case Scribble(node, _, _) => node in st.place && st.place[node] == Free
  }

  function Next(st: State, e: Event): State
    requires Enabled(st, e)
  {
    match e
    case StartEnqueue(a, node, val) =>
      st.(next := st.next[node := End], data := st.data[node := val], place := st.place[node := With(a)],
          agents := st.agents[a := Filled(node)])
    case StartDequeue(a) =>
      st.(size := st.size - 1, agents := st.agents[a := if st.size - 1 < 0 then Failing else Reserved])
    case Advance(a, k) =>
      if st.agents[a].Reserving() || st.agents[a].Failing? then DequeueStep(st, a, k) else EnqueueStep(st, a, k)
    case Scribble(node, x, val) => st.(next := st.next[node := To(x)], data := st.data[node := val])
  }

  function Goes(st: State, a: Agent, pc: Pc): State {
    st.(agents := st.agents[a := pc])
  }

  // The tail is moved on to `to` if it still looks like t.
  function SwingTail(st: State, t: Word, to: Addr, k: nat): State {
    if !Same(st.tail, t) then st
    else st.(tail := Word(to, k), used := st.used + {k}, tailAt := st.tailAt + 1)
  }

  predicate OnChain(st: State, n: Addr) {
    n in st.chain
  }

  function Attach(st: State, a: Agent, node: Addr, t: Word): State {
    if NextOf(st, t.addr) != End then Goes(st, a, Filled(node))
    else Goes(st.(next := st.next[t.addr := To(node)], place := st.place[node := InQueue],
                  chain := if OnChain(st, t.addr) then st.chain + [node] else st.chain,
                  entered := st.entered + [DataOf(st, node)]), a, Linked(node, t))
  }

  function EnqueueStep(st: State, a: Agent, k: nat): State
    requires Enabled(st, Advance(a, k)) && !st.agents[a].Reserving() && !st.agents[a].Failing?
  {
    match st.agents[a]
    case Filled(node) => Goes(st, a, TailSeen(node, st.tail))
    case TailSeen(node, t) => Goes(st, a, NextSeen(node, t, NextOf(st, t.addr)))
    case NextSeen(node, t, nx) =>
      if nx.To? then Goes(SwingTail(st, t, nx.addr, k), a, Filled(node)) else Attach(st, a, node, t)
    case Linked(node, t) => Goes(st.(size := st.size + 1), a, Counted(node, t))
    case Counted(node, t) => Goes(SwingTail(st, t, node, k), a, Idle)
  }

  function SwingHead(st: State, a: Agent, h: Word, nx: Addr, val: Val, k: nat): State {
    if !Same(st.head, h) then Goes(st, a, Reserved)
    else Goes(st.(head := Word(nx, k), used := st.used + {k}, place := st.place[h.addr := Free],
                  chain := if st.chain == [] then [] else st.chain[1..],
                  tailAt := if st.tailAt == 0 then 0 else st.tailAt - 1, left := st.left + [val]), a, Idle)
  }

  function DequeueStep(st: State, a: Agent, k: nat): State
    requires Enabled(st, Advance(a, k)) && (st.agents[a].Reserving() || st.agents[a].Failing?)
  {
    match st.agents[a]
    case Reserved => Goes(st, a, HeadRead(st.head))
    case HeadRead(h) => Goes(st, a, TailRead(h, st.tail))
    case TailRead(h, t) => Goes(st, a, HeadNextRead(h, t, NextOf(st, h.addr)))
    case HeadNextRead(h, t, nx) => Goes(st, a, BothRead(h, t, nx, NextOf(st, t.addr)))
    case BothRead(h, t, nx, tnx) =>
      if tnx.To? then Goes(SwingTail(st, t, tnx.addr, k), a, Reserved)
      else if nx == End then Goes(st, a, Reserved)
      else Goes(st, a, DataRead(h, nx.addr, DataOf(st, nx.addr)))
    case DataRead(h, nx, val) => SwingHead(st, a, h, nx, val, k)
    case Failing => Goes(st.(size := st.size + 1), a, Idle)
  }

  // ---- the invariant ---------------------------------------------------------------------

  // Following _next from the head meets the chain, and the tail is on it.
  ghost predicate ChainOk(st: State) {
    && st.chain != [] && st.head.addr == st.chain[0] && st.tailAt < |st.chain| && st.tail.addr == st.chain[st.tailAt]
    && (forall j, k :: 0 <= j < k < |st.chain| ==> st.chain[j] != st.chain[k])
    && forall k :: 0 <= k < |st.chain| ==> LinkOk(st, k)
  }

  ghost predicate LinkOk(st: State, k: nat)
    requires k < |st.chain|
  {
    && st.chain[k] in st.next && st.chain[k] in st.data && st.chain[k] in st.place && st.place[st.chain[k]] == InQueue
    && st.next[st.chain[k]] == if k + 1 < |st.chain| then To(st.chain[k + 1]) else End
  }

  // Only the last node of the chain and nodes not yet linked are open-ended.
  ghost predicate NodesOk(st: State) {
    && st.place.Keys == st.next.Keys == st.data.Keys
    && (forall n :: n in st.place && st.place[n] == InQueue ==> OnChain(st, n))
    && (forall n :: n in st.place && st.place[n] == Free ==> st.next[n] != End)
    && forall n :: n in st.place && st.place[n].With? ==> Prepares(st, st.place[n].a, n)
  }

  predicate Prepares(st: State, a: Agent, n: Addr) {
    a in st.agents && st.agents[a].Preparing() && st.agents[a].node == n && NextOf(st, n) == End
  }

  function Values(data: map<Addr, Val>, nodes: seq<Addr>): (vals: seq<Val>)
    ensures |vals| == |nodes|
  {
    seq(|nodes|, i requires 0 <= i < |nodes| => if nodes[i] in data then data[nodes[i]] else 0)
  }

  // The elements: the data of all nodes but the dummy.
  function Contents(st: State): seq<Val> {
    if st.chain == [] then [] else Values(st.data, st.chain[1..])
  }

  ghost predicate FifoOk(st: State) {
    st.entered == st.left + Contents(st)
  }

  ghost predicate NumbersOk(st: State) {
    st.head.number in st.used && st.tail.number in st.used
  }

  // A word read earlier; it may have been overtaken since.
  predicate WordOk(st: State, w: Word) {
    w.number in st.used && w.addr in st.next
  }

  // What was read behind the tail t, if t is still the tail.
  predicate BehindTail(st: State, t: Word, nx: Link) {
    nx.To? && t == st.tail ==> NextOf(st, t.addr) == nx
  }

  predicate BehindHead(st: State, h: Word, nx: Link) {
    nx.To? && h == st.head ==> NextOf(st, h.addr) == nx
  }

  // A tail read after the head h: while h is the head, the tail is not behind it.
  predicate TailNotBehind(st: State, h: Word, t: Word) {
    h == st.head ==> st.tailAt < |st.chain| && t.addr in st.chain[..st.tailAt + 1]
  }

  predicate OwnNode(st: State, a: Agent, node: Addr) {
    node in st.place && st.place[node] == With(a) && node in st.next && node in st.data && st.next[node] == End
  }

  ghost predicate AgentOk(st: State, a: Agent, pc: Pc) {
    match pc
    case Filled(node) => OwnNode(st, a, node)
    case TailSeen(node, t) => OwnNode(st, a, node) && WordOk(st, t)
    case NextSeen(node, t, nx) => OwnNode(st, a, node) && WordOk(st, t) && BehindTail(st, t, nx)
    case Linked(node, t) => WordOk(st, t) && BehindTail(st, t, To(node))
    case Counted(node, t) => WordOk(st, t) && BehindTail(st, t, To(node))
    case HeadRead(h) => WordOk(st, h)
    case TailRead(h, t) => WordOk(st, h) && WordOk(st, t) && TailNotBehind(st, h, t)
    case HeadNextRead(h, t, nx) => WordOk(st, h) && WordOk(st, t) && TailNotBehind(st, h, t) && BehindHead(st, h, nx)
    case BothRead(h, t, nx, tnx) =>
      && WordOk(st, h) && WordOk(st, t) && BehindHead(st, h, nx) && BehindTail(st, t, tnx)
      && (nx.To? && tnx == End ==> TailAhead(st, h))
    case DataRead(h, nx, val) =>
      WordOk(st, h) && TailAhead(st, h) && BehindHead(st, h, To(nx)) && (h == st.head ==> DataOf(st, nx) == val)
    case _ => true
  }

  // While h is the head, the tail is beyond it.
  predicate TailAhead(st: State, h: Word) {
    h == st.head ==> st.tailAt > 0
  }

  ghost predicate AgentsOk(st: State) {
    forall a :: a in st.agents ==> AgentOk(st, a, st.agents[a])
  }

  function Debtors(agents: map<Agent, Pc>): set<Agent> {
    set a | a in agents && agents[a].Owes()
  }

  function Takers(agents: map<Agent, Pc>): set<Agent> {
    set a | a in agents && agents[a].Reserving()
  }

  ghost predicate SizeOk(st: State) {
    && st.size == |Contents(st)| - |Debtors(st.agents)|
    && |Takers(st.agents)| <= |Contents(st)|
  }

  ghost predicate Inv(st: State) {
    ChainOk(st) && NodesOk(st) && NumbersOk(st) && FifoOk(st) && AgentsOk(st) && SizeOk(st)
  }

  ghost predicate Init(st: State) {
    exists d :: InitWith(st, d)
  }

  ghost predicate InitWith(st: State, d: Addr) {
    && st.head == st.tail == Word(d, 0) && st.used == {0} && st.size == 0
    && st.next == map[d := End] && d in st.data && st.data.Keys == {d} && st.chain == [d] && st.tailAt == 0
    && st.place == map[d := InQueue] && st.entered == [] && st.left == []
    && forall a :: a in st.agents ==> st.agents[a] == Idle
  }

  lemma InitInv(st: State)
    requires Init(st)
    ensures Inv(st)
  {
    assert Debtors(st.agents) == {} && Takers(st.agents) == {};
  }

  // ---- when a link is a link ------------------------------------------------------------------

  // The step links a node to a node that is not on the chain.
  predicate Astray(st: State, e: Event) {
    && e.Advance? && e.a in st.agents && st.agents[e.a].NextSeen? && st.agents[e.a].nx == End
    && NextOf(st, st.agents[e.a].t.addr) == End && !OnChain(st, st.agents[e.a].t.addr)
  }

  // Then that node is one another thread is about to enqueue.
  lemma AstrayMeansReused(st: State, e: Event)
    requires Inv(st) && Astray(st, e)
    ensures var n := st.agents[e.a].t.addr;
            n in st.place && st.place[n].With? && st.place[n].a in st.agents && st.agents[st.place[n].a].Preparing()
  {
    assert AgentOk(st, e.a, st.agents[e.a]);
  }

  // ---- when a word is the word ------------------------------------------------------------------

  // If the two look the same, they are.
  predicate Telling(w: Word, v: Word) {
    Same(w, v) ==> w == v
  }

  // The step takes the head or the tail for a word it read earlier, though it
  // has been changed since.
  predicate Stale(st: State, e: Event) {
    e.Advance? && e.a in st.agents &&
    match st.agents[e.a]
    case NextSeen(_, t, nx) => nx.To? && !Telling(st.tail, t)
    case Counted(_, t) => !Telling(st.tail, t)
    case BothRead(_, t, _, tnx) => tnx.To? && !Telling(st.tail, t)
    case DataRead(h, _, _) => !Telling(st.head, h)
    case _ => false
  }

  // Then the numbers of the two are at least 2^17 apart, and as the counter
  // goes up by one each time, it was raised that often in between.
  lemma StaleMeansWrap(st: State, e: Event)
    requires Stale(st, e)
    ensures exists w, v :: w in {st.head, st.tail} && v in WordsOf(st.agents[e.a]) && Apart(w, v)
  {
    match st.agents[e.a]
    case NextSeen(_, t, _) => NotTelling(st.tail, t);
    case Counted(_, t) => NotTelling(st.tail, t);
    case BothRead(_, t, _, _) => NotTelling(st.tail, t);
    case DataRead(h, _, _) => NotTelling(st.head, h);
    case _ =>
  }

  function WordsOf(pc: Pc): set<Word> {
    match pc
    case NextSeen(_, t, _) => {t}
    case Counted(_, t) => {t}
    case BothRead(h, t, _, _) => {h, t}
    case DataRead(h, _, _) => {h}
    case _ => {}
  }

  predicate Apart(w: Word, v: Word) {
    w.addr == v.addr && (w.number >= v.number + 0x2_0000 || v.number >= w.number + 0x2_0000)
  }

  lemma NotTelling(w: Word, v: Word)
    requires !Telling(w, v)
    ensures Apart(w, v)
  {
    var p, q := w.number / 0x2_0000, v.number / 0x2_0000;
    assert w.number == p * 0x2_0000 + w.number % 0x2_0000 && v.number == q * 0x2_0000 + v.number % 0x2_0000;
    assert p != q;
  }

  // ---- the size ------------------------------------------------------------------------------------

  lemma DebtorsAfter(agents: map<Agent, Pc>, a: Agent, pc: Pc)
    requires a in agents
    ensures |Debtors(agents[a := pc])| == |Debtors(agents)| - Debt(agents[a]) + Debt(pc)
    ensures |Takers(agents[a := pc])| == |Takers(agents)| - Share(agents[a]) + Share(pc)
  {
    DebtorsWith(agents, a);
    DebtorsWith(agents[a := pc], a);
    assert agents[a := pc] - {a} == agents - {a};
  }

  lemma DebtorsWith(agents: map<Agent, Pc>, a: Agent)
    requires a in agents
    ensures |Debtors(agents)| == |Debtors(agents - {a})| + if agents[a].Owes() then 1 else 0
    ensures |Takers(agents)| == |Takers(agents - {a})| + if agents[a].Reserving() then 1 else 0
  {
    assert Debtors(agents) == Debtors(agents - {a}) + if agents[a].Owes() then {a} else {};
    assert Takers(agents) == Takers(agents - {a}) + if agents[a].Reserving() then {a} else {};
  }

  lemma TakersOwe(agents: map<Agent, Pc>)
    ensures |Takers(agents)| <= |Debtors(agents)|
  {
    SubsetSize(Takers(agents), Debtors(agents));
  }

  lemma {:induction false} SubsetSize(a: set<Agent>, b: set<Agent>)
    requires a <= b
    ensures |a| <= |b|
  {
    if a != {} {
      var x :| x in a;
      SubsetSize(a - {x}, b - {x});
    }
  }

  function Debt(pc: Pc): int {
    if pc.Owes() then 1 else 0
  }

  function Share(pc: Pc): int {
    if pc.Reserving() then 1 else 0
  }

  // A step keeps the books if size and contents change as its debt does, and
  // it either found the size at least 0 or takes no more shares than elements
  // come in.
  lemma SizeAfter(st: State, st': State, a: Agent, pc: Pc)
    requires SizeOk(st) && a in st.agents && st'.agents == st.agents[a := pc]
    requires st'.size - |Contents(st')| + Debt(pc) == st.size - |Contents(st)| + Debt(st.agents[a])
    requires st'.size >= 0 || Share(pc) - Share(st.agents[a]) <= |Contents(st')| - |Contents(st)|
    ensures SizeOk(st')
  {
    DebtorsAfter(st.agents, a, pc);
    TakersOwe(st'.agents);
  }

  // ---- steps that leave the list alone ----------------------------------------------------------------

  // All but the size and the activities is the same.
  predicate SameList(st: State, st': State) {
    st' == st.(size := st'.size, agents := st'.agents)
  }

  lemma SameListKeeps(st: State, st': State)
    requires ChainOk(st) && SameList(st, st')
    ensures ChainOk(st') && Contents(st') == Contents(st)
  {
    forall k | 0 <= k < |st'.chain|
      ensures LinkOk(st', k)
    {
      assert LinkOk(st, k);
    }
  }

  // The activity keeps its claim on the node it is about to link.
  ghost predicate KeepsNode(st: State, st': State, a: Agent) {
    forall n :: Prepares(st, a, n) ==> Prepares(st', a, n)
  }

  lemma SameListNodes(st: State, st': State, a: Agent, pc: Pc)
    requires NodesOk(st) && SameList(st, st') && a in st.agents && st'.agents == st.agents[a := pc]
    requires KeepsNode(st, st', a)
    ensures NodesOk(st')
  {
  }

  lemma SameListAgents(st: State, st': State, a: Agent, pc: Pc)
    requires AgentsOk(st) && SameList(st, st') && a in st.agents && st'.agents == st.agents[a := pc]
    requires AgentOk(st, a, pc)
    ensures AgentsOk(st')
  {
  }

  lemma ReadStep(st: State, st': State, a: Agent, pc: Pc)
    requires Inv(st) && SameList(st, st') && a in st.agents && st'.agents == st.agents[a := pc]
    requires AgentOk(st, a, pc) && KeepsNode(st, st', a)
    requires st'.size + Debt(pc) == st.size + Debt(st.agents[a])
    requires st'.size >= 0 || Share(pc) <= Share(st.agents[a])
    ensures Inv(st')
  {
    SameListKeeps(st, st');
    SameListNodes(st, st', a, pc);
    SameListAgents(st, st', a, pc);
    SizeAfter(st, st', a, pc);
  }

  // An activity that prepares a node goes on preparing it.
  predicate SameNode(old_: Pc, pc: Pc) {
    old_.Preparing() ==> pc.Preparing() && pc.node == old_.node
  }

  lemma MoveStep(st: State, a: Agent, pc: Pc)
    requires Inv(st) && a in st.agents && AgentOk(st, a, pc) && SameNode(st.agents[a], pc)
    requires Debt(pc) == Debt(st.agents[a]) && Share(pc) <= Share(st.agents[a])
    ensures Inv(Goes(st, a, pc))
  {
    ReadStep(st, Goes(st, a, pc), a, pc);
  }

  // Raising the size by one, and owing one less.
  lemma PayStep(st: State, a: Agent, pc: Pc)
    requires Inv(st) && a in st.agents && AgentOk(st, a, pc) && !st.agents[a].Preparing()
    requires Debt(pc) + 1 == Debt(st.agents[a]) && Share(pc) <= Share(st.agents[a])
    ensures Inv(Goes(st.(size := st.size + 1), a, pc))
  {
    ReadStep(st, Goes(st.(size := st.size + 1), a, pc), a, pc);
  }

  // ---- the tail moves on ---------------------------------------------------------------------------------

  lemma SwingTailKeeps(st: State, t: Word, to: Addr, k: nat, b: Agent, pc: Pc)
    requires ChainOk(st) && k !in st.used && AgentOk(st, b, pc) && BehindTail(st, t, To(to)) && Telling(st.tail, t)
    ensures AgentOk(SwingTail(st, t, to, k), b, pc)
  {
    if Same(st.tail, t) {
      TailHasNext(st, to);
      var st' := SwingTail(st, t, to, k);
      if st.tailAt + 1 < |st.chain| {
        assert st'.chain[..st'.tailAt + 1] == st.chain[..st.tailAt + 1] + [st.chain[st.tailAt + 1]];
      }
    }
  }

  lemma TailHasNext(st: State, to: Addr)
    requires ChainOk(st) && NextOf(st, st.tail.addr) == To(to)
    ensures st.tailAt + 1 < |st.chain| && st.chain[st.tailAt + 1] == to
  {
    assert LinkOk(st, st.tailAt);
  }

  lemma SwingTailList(st: State, t: Word, to: Addr, k: nat)
    requires Inv(st) && k !in st.used && BehindTail(st, t, To(to)) && Telling(st.tail, t)
    ensures Inv(SwingTail(st, t, to, k))
  {
    var st' := SwingTail(st, t, to, k);
    if Same(st.tail, t) {
      TailHasNext(st, to);
    }
    forall i | 0 <= i < |st'.chain|
      ensures LinkOk(st', i)
    {
      assert LinkOk(st, i);
    }
    forall b | b in st'.agents
      ensures AgentOk(st', b, st'.agents[b])
    {
      SwingTailKeeps(st, t, to, k, b, st.agents[b]);
    }
  }

  // ---- enqueuing ----------------------------------------------------------------------------------------

  lemma NewNodeOthers(st: State, a: Agent, node: Addr, val: Val, b: Agent)
    requires Inv(st) && Enabled(st, StartEnqueue(a, node, val)) && b in st.agents && b != a
    ensures AgentOk(Next(st, StartEnqueue(a, node, val)), b, st.agents[b])
  {
    assert LinkOk(st, 0) && LinkOk(st, st.tailAt);
    assert AgentOk(st, b, st.agents[b]);
    if st.agents[b].DataRead? && st.agents[b].h == st.head {
      assert LinkOk(st, 1);
    }
  }

  lemma NewNodeList(st: State, st': State, node: Addr, link: Link, val: Val)
    requires ChainOk(st) && (node in st.place ==> st.place[node] == Free)
    requires st' == st.(next := st.next[node := link], data := st.data[node := val], place := st'.place,
                        agents := st'.agents)
    requires node in st'.place && st'.place == st.place[node := st'.place[node]]
    ensures ChainOk(st') && Contents(st') == Contents(st)
  {
    forall k | 0 <= k < |st.chain|
      ensures st.chain[k] != node && LinkOk(st', k)
    {
      assert LinkOk(st, k);
    }
    forall k | 0 <= k < |st.chain[1..]|
      ensures st.chain[1..][k] != node
    {
      assert st.chain[1..][k] == st.chain[k + 1];
    }
  }

  lemma NewNodeNodes(st: State, a: Agent, node: Addr, val: Val)
    requires Inv(st) && Enabled(st, StartEnqueue(a, node, val))
    ensures NodesOk(Next(st, StartEnqueue(a, node, val)))
  {
  }

  lemma StartEnqueueStep(st: State, a: Agent, node: Addr, val: Val)
    requires Inv(st) && Enabled(st, StartEnqueue(a, node, val))
    ensures Inv(Next(st, StartEnqueue(a, node, val)))
  {
    var st' := Next(st, StartEnqueue(a, node, val));
    NewNodeList(st, st', node, End, val);
    NewNodeNodes(st, a, node, val);
    SizeAfter(st, st', a, Filled(node));
    forall b | b in st'.agents
      ensures AgentOk(st', b, st'.agents[b])
    {
      if b != a {
        NewNodeOthers(st, a, node, val, b);
      }
    }
  }

  // A freed node is not one of those the words lead to.
  lemma FreedElsewhere(st: State, node: Addr)
    requires ChainOk(st) && node in st.place && st.place[node] == Free
    ensures node != st.head.addr && node != st.tail.addr
    ensures forall first :: NextOf(st, st.head.addr) == To(first) ==> first != node
  {
    assert LinkOk(st, 0) && LinkOk(st, st.tailAt);
    if |st.chain| > 1 {
      assert LinkOk(st, 1);
    }
  }

  lemma ScribbleOthers(st: State, node: Addr, x: Addr, val: Val, b: Agent)
    requires Inv(st) && Enabled(st, Scribble(node, x, val)) && b in st.agents
    ensures AgentOk(Next(st, Scribble(node, x, val)), b, st.agents[b])
  {
    FreedElsewhere(st, node);
    assert AgentOk(st, b, st.agents[b]);
  }

  lemma ScribbleStep(st: State, node: Addr, x: Addr, val: Val)
    requires Inv(st) && Enabled(st, Scribble(node, x, val))
    ensures Inv(Next(st, Scribble(node, x, val)))
  {
    var st' := Next(st, Scribble(node, x, val));
    assert st'.place == st.place[node := Free];
    NewNodeList(st, st', node, To(x), val);
    forall b | b in st'.agents
      ensures AgentOk(st', b, st'.agents[b])
    {
      ScribbleOthers(st, node, x, val, b);
    }
  }

  // The node linked to is the last of the chain.
  lemma LinksToTheLast(st: State, n: Addr)
    requires ChainOk(st) && OnChain(st, n) && NextOf(st, n) == End
    ensures st.chain[|st.chain| - 1] == n
  {
    var k :| 0 <= k < |st.chain| && st.chain[k] == n;
    assert LinkOk(st, k);
  }

  lemma AttachLink(st: State, a: Agent, node: Addr, t: Word, k: nat)
    requires ChainOk(st) && OwnNode(st, a, node) && t.addr == st.chain[|st.chain| - 1] && NextOf(st, t.addr) == End
    requires k <= |st.chain|
    ensures LinkOk(Attach(st, a, node, t), k)
    ensures k < |st.chain| ==> st.chain[k] != node
  {
    assert LinkOk(st, |st.chain| - 1);
    assert k < |st.chain| ==> LinkOk(st, k);
  }

  lemma AttachList(st: State, a: Agent, node: Addr, t: Word)
    requires ChainOk(st) && OwnNode(st, a, node) && NextOf(st, t.addr) == End && OnChain(st, t.addr)
    ensures ChainOk(Attach(st, a, node, t))
  {
    LinksToTheLast(st, t.addr);
    forall k | 0 <= k <= |st.chain|
      ensures LinkOk(Attach(st, a, node, t), k)
      ensures k < |st.chain| ==> st.chain[k] != node
    {
      AttachLink(st, a, node, t, k);
    }
  }

  lemma AttachContents(st: State, a: Agent, node: Addr, t: Word)
    requires ChainOk(st) && OwnNode(st, a, node) && NextOf(st, t.addr) == End && OnChain(st, t.addr)
    ensures Contents(Attach(st, a, node, t)) == Contents(st) + [DataOf(st, node)]
  {
    assert (st.chain + [node])[1..] == st.chain[1..] + [node];
  }

  lemma AttachNodes(st: State, a: Agent, node: Addr, t: Word)
    requires ChainOk(st) && NodesOk(st) && a in st.agents && st.agents[a].NextSeen? && OwnNode(st, a, node)
    requires NextOf(st, t.addr) == End && OnChain(st, t.addr)
    ensures NodesOk(Attach(st, a, node, t))
  {
    LinksToTheLast(st, t.addr);
    assert LinkOk(st, |st.chain| - 1);
  }

  // The node linked to is nobody's, so nobody's knowledge is about it.
  lemma AttachOthers(st: State, a: Agent, node: Addr, t: Word, b: Agent, pc: Pc)
    requires ChainOk(st) && OwnNode(st, a, node) && NextOf(st, t.addr) == End
    requires t.addr in st.place && st.place[t.addr] == InQueue
    requires OnChain(st, t.addr) && b != a && AgentOk(st, b, pc)
    ensures AgentOk(Attach(st, a, node, t), b, pc)
  {
    assert (st.chain + [node])[..st.tailAt + 1] == st.chain[..st.tailAt + 1];
  }

  lemma ChainNodePlaced(st: State, n: Addr)
    requires ChainOk(st) && OnChain(st, n)
    ensures n in st.place && st.place[n] == InQueue && n in st.next
  {
    var k :| 0 <= k < |st.chain| && st.chain[k] == n;
    assert LinkOk(st, k);
  }

  lemma AttachAgents(st: State, a: Agent, node: Addr, t: Word)
    requires ChainOk(st) && AgentsOk(st) && a in st.agents && OwnNode(st, a, node) && WordOk(st, t)
    requires NextOf(st, t.addr) == End && OnChain(st, t.addr)
    ensures AgentsOk(Attach(st, a, node, t))
  {
    ChainNodePlaced(st, t.addr);
    forall b | b in st.agents && b != a
      ensures AgentOk(Attach(st, a, node, t), b, st.agents[b])
    {
      assert AgentOk(st, b, st.agents[b]);
      AttachOthers(st, a, node, t, b, st.agents[b]);
    }
    assert AgentOk(Attach(st, a, node, t), a, Linked(node, t));
  }

  lemma AttachSize(st: State, a: Agent, node: Addr, t: Word)
    requires SizeOk(st) && a in st.agents && st.agents[a].NextSeen? && NextOf(st, t.addr) == End
    requires |Contents(Attach(st, a, node, t))| == |Contents(st)| + 1
    ensures SizeOk(Attach(st, a, node, t))
  {
    SizeAfter(st, Attach(st, a, node, t), a, Linked(node, t));
  }

  lemma AttachSucceeds(st: State, a: Agent)
    requires Inv(st) && a in st.agents && st.agents[a].NextSeen?
    requires NextOf(st, st.agents[a].t.addr) == End && OnChain(st, st.agents[a].t.addr)
    ensures Inv(Attach(st, a, st.agents[a].node, st.agents[a].t))
  {
    var node, t := st.agents[a].node, st.agents[a].t;
    assert AgentOk(st, a, st.agents[a]);
    AttachList(st, a, node, t);
    AttachContents(st, a, node, t);
    AttachNodes(st, a, node, t);
    AttachSize(st, a, node, t);
    AttachAgents(st, a, node, t);
  }

  lemma AttachStep(st: State, a: Agent, k: nat)
    requires Inv(st) && k !in st.used && a in st.agents && st.agents[a].NextSeen?
    requires st.agents[a].nx == End && (NextOf(st, st.agents[a].t.addr) == End ==> OnChain(st, st.agents[a].t.addr))
    ensures Inv(EnqueueStep(st, a, k))
  {
    if NextOf(st, st.agents[a].t.addr) == End {
      AttachSucceeds(st, a);
    } else {
      assert AgentOk(st, a, st.agents[a]);
      ReadStep(st, Goes(st, a, Filled(st.agents[a].node)), a, Filled(st.agents[a].node));
    }
  }

  lemma HelpedStep(st: State, a: Agent, t: Word, to: Addr, k: nat, pc: Pc)
    requires Inv(st) && k !in st.used && a in st.agents && BehindTail(st, t, To(to)) && Telling(st.tail, t)
    requires Debt(pc) == Debt(st.agents[a]) && Share(pc) == Share(st.agents[a])
    requires AgentOk(st, a, pc) && forall n :: Prepares(st, a, n) ==> pc.Preparing() && pc.node == n
    ensures Inv(Goes(SwingTail(st, t, to, k), a, pc))
  {
    SwingTailList(st, t, to, k);
    SwingTailKeeps(st, t, to, k, a, pc);
    ReadStep(SwingTail(st, t, to, k), Goes(SwingTail(st, t, to, k), a, pc), a, pc);
  }

  lemma CountedStep(st: State, a: Agent, k: nat)
    requires Inv(st) && k !in st.used && a in st.agents && st.agents[a].Counted?
    requires !Stale(st, Advance(a, k))
    ensures Inv(EnqueueStep(st, a, k))
  {
    assert AgentOk(st, a, st.agents[a]);
    HelpedStep(st, a, st.agents[a].t, st.agents[a].node, k, Idle);
  }

  lemma EnqueueHelps(st: State, a: Agent, k: nat)
    requires Inv(st) && k !in st.used && a in st.agents && st.agents[a].NextSeen? && st.agents[a].nx.To?
    requires !Stale(st, Advance(a, k))
    ensures Inv(EnqueueStep(st, a, k))
  {
    assert AgentOk(st, a, st.agents[a]);
    HelpedStep(st, a, st.agents[a].t, st.agents[a].nx.addr, k, Filled(st.agents[a].node));
  }

  lemma DequeueHelps(st: State, a: Agent, k: nat)
    requires Inv(st) && k !in st.used && a in st.agents && st.agents[a].BothRead? && st.agents[a].tnx.To?
    requires !Stale(st, Advance(a, k))
    ensures Inv(DequeueStep(st, a, k))
  {
    assert AgentOk(st, a, st.agents[a]);
    HelpedStep(st, a, st.agents[a].t, st.agents[a].tnx.addr, k, Reserved);
  }

  lemma TailPlaced(st: State)
    requires ChainOk(st)
    ensures st.head.addr in st.next && st.tail.addr in st.next && st.tail.addr in st.chain[..st.tailAt + 1]
  {
    assert LinkOk(st, 0) && LinkOk(st, st.tailAt);
    assert st.chain[st.tailAt] == st.chain[..st.tailAt + 1][st.tailAt];
  }

  lemma FilledStep(st: State, a: Agent, k: nat)
    requires Inv(st) && k !in st.used && a in st.agents && st.agents[a].Filled?
    ensures Inv(EnqueueStep(st, a, k))
  {
    var pc := TailSeen(st.agents[a].node, st.tail);
    TailPlaced(st);
    assert AgentOk(st, a, st.agents[a]);
    assert EnqueueStep(st, a, k) == Goes(st, a, pc);
    MoveStep(st, a, pc);
  }

  lemma TailSeenStep(st: State, a: Agent, k: nat)
    requires Inv(st) && k !in st.used && a in st.agents && st.agents[a].TailSeen?
    ensures Inv(EnqueueStep(st, a, k))
  {
    var pc := NextSeen(st.agents[a].node, st.agents[a].t, NextOf(st, st.agents[a].t.addr));
    assert AgentOk(st, a, st.agents[a]);
    KnowsNext(st, a, st.agents[a].node, st.agents[a].t);
    assert EnqueueStep(st, a, k) == Goes(st, a, pc);
    MoveStep(st, a, pc);
  }

  lemma KnowsNext(st: State, a: Agent, node: Addr, t: Word)
    requires AgentOk(st, a, TailSeen(node, t))
    ensures AgentOk(st, a, NextSeen(node, t, NextOf(st, t.addr)))
  {
  }

  lemma LinkedStep(st: State, a: Agent, k: nat)
    requires Inv(st) && k !in st.used && a in st.agents && st.agents[a].Linked?
    ensures Inv(EnqueueStep(st, a, k))
  {
    var pc := Counted(st.agents[a].node, st.agents[a].t);
    assert AgentOk(st, a, st.agents[a]);
    assert AgentOk(st, a, pc);
    PayStep(st, a, pc);
    assert EnqueueStep(st, a, k) == Goes(st.(size := st.size + 1), a, pc);
  }

  // ---- dequeuing --------------------------------------------------------------------------------------------

  lemma StartDequeueStep(st: State, a: Agent)
    requires Inv(st) && Enabled(st, StartDequeue(a))
    ensures Inv(Next(st, StartDequeue(a)))
  {
    ReadStep(st, Next(st, StartDequeue(a)), a, Next(st, StartDequeue(a)).agents[a]);
  }

  // If head and tail were read in this order, the head has a successor and the
  // tail none, and the head is still the head, then they are different nodes.
  lemma TailIsAhead(st: State, h: Word, t: Word, nx: Link)
    requires ChainOk(st) && TailNotBehind(st, h, t) && BehindHead(st, h, nx) && nx.To? && NextOf(st, t.addr) == End
    ensures TailAhead(st, h)
  {
  }

  lemma ReservedStep(st: State, a: Agent, k: nat)
    requires Inv(st) && k !in st.used && a in st.agents && st.agents[a].Reserved?
    ensures Inv(DequeueStep(st, a, k))
  {
    TailPlaced(st);
    MoveStep(st, a, HeadRead(st.head));
  }

  lemma HeadReadStep(st: State, a: Agent, k: nat)
    requires Inv(st) && k !in st.used && a in st.agents && st.agents[a].HeadRead?
    ensures Inv(DequeueStep(st, a, k))
  {
    TailPlaced(st);
    assert AgentOk(st, a, st.agents[a]);
    MoveStep(st, a, TailRead(st.agents[a].h, st.tail));
  }

  lemma TailReadStep(st: State, a: Agent, k: nat)
    requires Inv(st) && k !in st.used && a in st.agents && st.agents[a].TailRead?
    ensures Inv(DequeueStep(st, a, k))
  {
    assert AgentOk(st, a, st.agents[a]);
    MoveStep(st, a, HeadNextRead(st.agents[a].h, st.agents[a].t, NextOf(st, st.agents[a].h.addr)));
  }

  lemma FailingStep(st: State, a: Agent, k: nat)
    requires Inv(st) && k !in st.used && a in st.agents && st.agents[a].Failing?
    ensures Inv(DequeueStep(st, a, k))
  {
    PayStep(st, a, Idle);
    assert DequeueStep(st, a, k) == Goes(st.(size := st.size + 1), a, Idle);
  }

  lemma HeadNextReadStep(st: State, a: Agent, k: nat)
    requires Inv(st) && k !in st.used && a in st.agents && st.agents[a].HeadNextRead?
    ensures Inv(DequeueStep(st, a, k))
  {
    var pc := st.agents[a];
    assert AgentOk(st, a, pc);
    if pc.nx.To? && NextOf(st, pc.t.addr) == End {
      TailIsAhead(st, pc.h, pc.t, pc.nx);
    }
    MoveStep(st, a, BothRead(pc.h, pc.t, pc.nx, NextOf(st, pc.t.addr)));
  }

  lemma BothReadStep(st: State, a: Agent, k: nat)
    requires Inv(st) && k !in st.used && a in st.agents && st.agents[a].BothRead? && st.agents[a].tnx == End
    ensures Inv(DequeueStep(st, a, k))
  {
    var pc := st.agents[a];
    assert AgentOk(st, a, pc);
    if pc.nx == End {
      MoveStep(st, a, Reserved);
    } else {
      MoveStep(st, a, DataRead(pc.h, pc.nx.addr, DataOf(st, pc.nx.addr)));
    }
  }

  lemma HeadHasNext(st: State, first: Addr)
    requires ChainOk(st) && NextOf(st, st.head.addr) == To(first)
    ensures |st.chain| > 1 && st.chain[1] == first
  {
    assert LinkOk(st, 0);
  }

  lemma SwingHeadList(st: State, a: Agent, first: Addr, val: Val, k: nat)
    requires ChainOk(st) && NextOf(st, st.head.addr) == To(first) && st.tailAt > 0 && DataOf(st, first) == val
    ensures ChainOk(SwingHead(st, a, st.head, first, val, k))
  {
    var st' := SwingHead(st, a, st.head, first, val, k);
    HeadHasNext(st, first);
    forall i | 0 <= i < |st'.chain|
      ensures LinkOk(st', i)
    {
      assert LinkOk(st, i + 1);
    }
  }

  lemma SwingHeadContents(st: State, a: Agent, first: Addr, val: Val, k: nat)
    requires ChainOk(st) && FifoOk(st) && NextOf(st, st.head.addr) == To(first) && DataOf(st, first) == val
    ensures Contents(st) == [val] + Contents(SwingHead(st, a, st.head, first, val, k))
    ensures FifoOk(SwingHead(st, a, st.head, first, val, k))
  {
    HeadHasNext(st, first);
    var st' := SwingHead(st, a, st.head, first, val, k);
    ValuesSplit(st.data, st.chain[1..]);
    assert Contents(st') == Values(st.data, st.chain[1..][1..]);
    assert st.left + ([val] + Contents(st')) == (st.left + [val]) + Contents(st');
  }

  lemma ValuesSplit(data: map<Addr, Val>, nodes: seq<Addr>)
    requires nodes != []
    ensures Values(data, nodes) == [if nodes[0] in data then data[nodes[0]] else 0] + Values(data, nodes[1..])
  {
  }

  lemma SwingHeadNodes(st: State, a: Agent, first: Addr, val: Val, k: nat)
    requires ChainOk(st) && NodesOk(st) && a in st.agents && !st.agents[a].Preparing()
    requires NextOf(st, st.head.addr) == To(first)
    ensures NodesOk(SwingHead(st, a, st.head, first, val, k))
  {
  }

  lemma SwingHeadOthers(st: State, a: Agent, first: Addr, val: Val, k: nat, b: Agent)
    requires Inv(st) && k !in st.used && b in st.agents && b != a
    ensures AgentOk(SwingHead(st, a, st.head, first, val, k), b, st.agents[b])
  {
    assert LinkOk(st, 0);
    assert AgentOk(st, b, st.agents[b]);
  }

  lemma SwingHeadAgents(st: State, a: Agent, first: Addr, val: Val, k: nat)
    requires Inv(st) && k !in st.used && a in st.agents
    ensures AgentsOk(SwingHead(st, a, st.head, first, val, k))
  {
    forall b | b in st.agents && b != a
      ensures AgentOk(SwingHead(st, a, st.head, first, val, k), b, st.agents[b])
    {
      SwingHeadOthers(st, a, first, val, k, b);
    }
  }

  lemma SwingHeadSize(st: State, a: Agent, first: Addr, val: Val, k: nat)
    requires SizeOk(st) && a in st.agents && st.agents[a].DataRead?
    requires Contents(st) == [val] + Contents(SwingHead(st, a, st.head, first, val, k))
    ensures SizeOk(SwingHead(st, a, st.head, first, val, k))
  {
    SizeAfter(st, SwingHead(st, a, st.head, first, val, k), a, Idle);
  }

  lemma SwingHeadSucceeds(st: State, a: Agent, k: nat)
    requires Inv(st) && k !in st.used && a in st.agents && st.agents[a].DataRead? && st.head == st.agents[a].h
    ensures Inv(SwingHead(st, a, st.head, st.agents[a].first, st.agents[a].val, k))
  {
    var first, val := st.agents[a].first, st.agents[a].val;
    assert AgentOk(st, a, st.agents[a]);
    SwingHeadList(st, a, first, val, k);
    SwingHeadContents(st, a, first, val, k);
    SwingHeadNodes(st, a, first, val, k);
    SwingHeadSize(st, a, first, val, k);
    SwingHeadAgents(st, a, first, val, k);
  }

  lemma SwingHeadStep(st: State, a: Agent, k: nat)
    requires Inv(st) && k !in st.used && a in st.agents && st.agents[a].DataRead?
    requires !Stale(st, Advance(a, k))
    ensures Inv(DequeueStep(st, a, k))
  {
    if st.head == st.agents[a].h {
      SwingHeadSucceeds(st, a, k);
    } else {
      ReadStep(st, Goes(st, a, Reserved), a, Reserved);
    }
  }

  lemma EnqueueStepInv(st: State, a: Agent, k: nat)
    requires Inv(st) && Enabled(st, Advance(a, k)) && !Astray(st, Advance(a, k)) && !Stale(st, Advance(a, k))
    requires !st.agents[a].Reserving() && !st.agents[a].Failing?
    ensures Inv(EnqueueStep(st, a, k))
  {
    match st.agents[a]
    case Filled(_) => FilledStep(st, a, k);
    case TailSeen(_, _) => TailSeenStep(st, a, k);
    case NextSeen(_, _, nx) => if nx.To? { EnqueueHelps(st, a, k); } else { AttachStep(st, a, k); }
    case Linked(_, _) => LinkedStep(st, a, k);
    case Counted(_, _) => CountedStep(st, a, k);
  }

  lemma DequeueStepInv(st: State, a: Agent, k: nat)
    requires Inv(st) && Enabled(st, Advance(a, k)) && !Stale(st, Advance(a, k))
    requires st.agents[a].Reserving() || st.agents[a].Failing?
    ensures Inv(DequeueStep(st, a, k))
  {
    match st.agents[a]
    case Reserved => ReservedStep(st, a, k);
    case HeadRead(_) => HeadReadStep(st, a, k);
    case TailRead(_, _) => TailReadStep(st, a, k);
    case HeadNextRead(_, _, _) => HeadNextReadStep(st, a, k);
    case BothRead(_, _, _, tnx) => if tnx.To? { DequeueHelps(st, a, k); } else { BothReadStep(st, a, k); }
    case DataRead(_, _, _) => SwingHeadStep(st, a, k);
    case Failing => FailingStep(st, a, k);
  }

  lemma StepInv(st: State, e: Event)
    requires Inv(st) && Enabled(st, e) && !Astray(st, e) && !Stale(st, e)
    ensures Inv(Next(st, e))
  {
    match e
    case StartEnqueue(a, node, val) => StartEnqueueStep(st, a, node, val);
    case StartDequeue(a) => StartDequeueStep(st, a);
    case Advance(a, k) =>
      if st.agents[a].Reserving() || st.agents[a].Failing? {
        DequeueStepInv(st, a, k);
      } else {
        EnqueueStepInv(st, a, k);
      }
    case Scribble(node, x, val) => ScribbleStep(st, node, x, val);
  }

  // ---- whole runs ------------------------------------------------------------------------------------------

  ghost predicate Possible(st: State, events: seq<Event>)
    decreases |events|
  {
    events == [] || (Enabled(st, events[0]) && Possible(Next(st, events[0]), events[1..]))
  }

  function Run(st: State, events: seq<Event>): State
    requires Possible(st, events)
    decreases |events|
  {
    if events == [] then st else Run(Next(st, events[0]), events[1..])
  }

  // No link ever goes to a node off the chain.
  ghost predicate Straight(st: State, events: seq<Event>)
    requires Possible(st, events)
    decreases |events|
  {
    events == [] || (!Astray(st, events[0]) && Straight(Next(st, events[0]), events[1..]))
  }

  // No word is ever taken for an earlier one.
  ghost predicate Timely(st: State, events: seq<Event>)
    requires Possible(st, events)
    decreases |events|
  {
    events == [] || (!Stale(st, events[0]) && Timely(Next(st, events[0]), events[1..]))
  }

  lemma {:induction false} RunInv(st: State, events: seq<Event>)
    requires Inv(st) && Possible(st, events) && Straight(st, events) && Timely(st, events)
    ensures Inv(Run(st, events))
    decreases |events|
  {
    if events != [] {
      StepInv(st, events[0]);
      RunInv(Next(st, events[0]), events[1..]);
    }
  }

  ghost predicate Arrives(start: State, events: seq<Event>, st: State) {
    && Init(start) && Possible(start, events) && Straight(start, events) && Timely(start, events)
    && Run(start, events) == st
  }

  ghost predicate Reachable(st: State) {
    exists start, events :: Arrives(start, events, st)
  }

  lemma ReachableInv(st: State)
    requires Reachable(st)
    ensures Inv(st)
  {
    var start, events :| Arrives(start, events, st);
    InitInv(start);
    RunInv(start, events);
  }

  // The data met by following _next from a node, without that node's own.
  ghost function Walk(st: State, n: Addr, steps: nat): seq<Val>
    decreases steps
  {
    if steps == 0 || NextOf(st, n) == End then []
    else [DataOf(st, NextOf(st, n).addr)] + Walk(st, NextOf(st, n).addr, steps - 1)
  }

  // What one finds in memory, from the head on. There are not more steps to
  // take than there are nodes.
  ghost function Found(st: State): seq<Val> {
    Walk(st, st.head.addr, |st.next|)
  }

  // First in, first out: the values handed out so far, followed by those one
  // finds in memory, are the values linked so far, in the order in which they
  // were linked.
  ghost predicate Fifo(st: State) {
    st.entered == st.left + Found(st)
  }

  lemma FoundIsContents(st: State)
    requires Inv(st)
    ensures Found(st) == Contents(st)
  {
    ChainFits(st);
    WalkChain(st, 0, |st.next|);
  }

  // The chain has no more nodes than the memory.
  lemma {:induction false} Fits(nodes: seq<Addr>, room: set<Addr>)
    requires forall i :: 0 <= i < |nodes| ==> nodes[i] in room
    requires forall i, j :: 0 <= i < j < |nodes| ==> nodes[i] != nodes[j]
    ensures |nodes| <= |room|
    decreases |nodes|
  {
    if nodes != [] {
      Fits(nodes[1..], room - {nodes[0]});
    }
  }

  lemma ChainFits(st: State)
    requires ChainOk(st)
    ensures |st.chain| <= |st.next|
  {
    forall i | 0 <= i < |st.chain|
      ensures st.chain[i] in st.next.Keys
    {
      assert LinkOk(st, i);
    }
    Fits(st.chain, st.next.Keys);
  }

  lemma {:induction false} WalkChain(st: State, k: nat, steps: nat)
    requires ChainOk(st) && k < |st.chain| && steps >= |st.chain| - k
    ensures Walk(st, st.chain[k], steps) == Values(st.data, st.chain[k + 1..])
    decreases steps
  {
    assert LinkOk(st, k);
    if k + 1 < |st.chain| {
      WalkChain(st, k + 1, steps - 1);
      assert st.chain[k + 1..] == [st.chain[k + 1]] + st.chain[k + 2..];
    }
  }

  lemma FirstInFirstOut(st: State)
    requires Reachable(st)
    ensures Fifo(st)
  {
    ReachableInv(st);
    FoundIsContents(st);
  }

  // The link of a node off the chain is not met on the way from the head on.
  lemma {:induction false} WalkPast(st: State, st': State, n: Addr, k: nat, steps: nat)
    requires ChainOk(st) && n !in st.chain && k < |st.chain| && st'.data == st.data
    requires forall m :: m != n ==> NextOf(st', m) == NextOf(st, m)
    ensures Walk(st', st.chain[k], steps) == Walk(st, st.chain[k], steps)
    decreases steps
  {
    assert LinkOk(st, k) && st.chain[k] != n;
    if steps > 0 && k + 1 < |st.chain| {
      WalkPast(st, st', n, k + 1, steps - 1);
    }
  }

  lemma StrayIsLost(st: State, e: Event)
    requires Inv(st) && Enabled(st, e) && Astray(st, e)
    ensures Found(Next(st, e)) == Found(st) && |Next(st, e).entered| == |st.entered| + 1
    ensures Next(st, e).left == st.left
  {
    var n, st' := st.agents[e.a].t.addr, Next(st, e);
    StrayChanges(st, e);
    KeysCount(st.next, st'.next);
    WalkPast(st, st', n, 0, |st.next|);
  }

  lemma StrayChanges(st: State, e: Event)
    requires Inv(st) && Enabled(st, e) && Astray(st, e)
    ensures Next(st, e).next == st.next[st.agents[e.a].t.addr := To(st.agents[e.a].node)]
    ensures Next(st, e).next.Keys == st.next.Keys && Next(st, e).data == st.data && Next(st, e).head == st.head
    ensures |Next(st, e).entered| == |st.entered| + 1 && Next(st, e).left == st.left
  {
    assert AgentOk(st, e.a, st.agents[e.a]);
  }

  lemma KeysCount(m: map<Addr, Link>, m': map<Addr, Link>)
    requires m.Keys == m'.Keys
    ensures |m| == |m'|
  {
    assert |m| == |m.Keys| && |m'| == |m'.Keys|;
  }

  lemma NextIsAttach(st: State, a: Agent, k: nat)
    requires Enabled(st, Advance(a, k)) && st.agents[a].NextSeen? && st.agents[a].nx == End
    ensures Next(st, Advance(a, k)) == Attach(st, a, st.agents[a].node, st.agents[a].t)
  {
  }

  lemma AttachIsFound(st: State, a: Agent, node: Addr, t: Word)
    requires Inv(st) && Inv(Attach(st, a, node, t)) && OwnNode(st, a, node)
    requires NextOf(st, t.addr) == End && OnChain(st, t.addr)
    ensures Found(Attach(st, a, node, t)) == Found(st) + [DataOf(st, node)]
  {
    AttachContents(st, a, node, t);
    FoundIsContents(st);
    FoundIsContents(Attach(st, a, node, t));
  }

  lemma StraightIsFound(st: State, a: Agent, k: nat)
    requires Inv(st) && Enabled(st, Advance(a, k)) && st.agents[a].NextSeen? && st.agents[a].nx == End
    requires NextOf(st, st.agents[a].t.addr) == End && OnChain(st, st.agents[a].t.addr)
    ensures Found(Next(st, Advance(a, k))) == Found(st) + [DataOf(st, st.agents[a].node)]
  {
    NextIsAttach(st, a, k);
    AttachSucceeds(st, a);
    OwnsItsNode(st, a);
    AttachIsFound(st, a, st.agents[a].node, st.agents[a].t);
  }

  lemma OwnsItsNode(st: State, a: Agent)
    requires AgentsOk(st) && a in st.agents && st.agents[a].NextSeen?
    ensures OwnNode(st, a, st.agents[a].node)
  {
    assert AgentOk(st, a, st.agents[a]);
  }

  // The exchange of an enqueue appends its value to what one finds in memory
  // exactly if the node it links to is on the chain.
  lemma AppendsExactlyOnTheChain(st: State, a: Agent, k: nat)
    requires Reachable(st) && Enabled(st, Advance(a, k)) && st.agents[a].NextSeen? && st.agents[a].nx == End
    requires NextOf(st, st.agents[a].t.addr) == End
    ensures Found(Next(st, Advance(a, k))) == Found(st) + [DataOf(st, st.agents[a].node)]
       <==> OnChain(st, st.agents[a].t.addr)
  {
    ReachableInv(st);
    if OnChain(st, st.agents[a].t.addr) {
      StraightIsFound(st, a, k);
    } else {
      StrayIsLost(st, Advance(a, k));
    }
  }

  // The thread has not linked its node yet, at no point of the run.
  ghost predicate Unlinked(st: State, a: Agent, events: seq<Event>)
    requires Possible(st, events)
    decreases |events|
  {
    && a in st.agents && st.agents[a].Preparing()
    && (events != [] ==> Unlinked(Next(st, events[0]), a, events[1..]))
  }

  // What an enqueue appends is the value it was called with, however often it
  // had to begin anew and whatever the others did meanwhile.
  lemma AppendsItsValue(st: State, a: Agent, node: Addr, val: Val, begun: State, events: seq<Event>, to: State, k: nat)
    requires Reachable(st) && Enabled(st, StartEnqueue(a, node, val)) && Next(st, StartEnqueue(a, node, val)) == begun
    requires Possible(begun, events) && Straight(begun, events) && Timely(begun, events) && Run(begun, events) == to
    requires Unlinked(begun, a, events)
    ensures a in to.agents && to.agents[a].Preparing() && to.agents[a].node == node
    ensures Enabled(to, Advance(a, k)) && LinksNow(to, a) ==> Found(Next(to, Advance(a, k))) == Found(to) + [val]
  {
    ReachableInv(st);
    StartEnqueueStep(st, a, node, val);
    ValueStays(begun, a, node, val, events);
    RunInv(begun, events);
    if Enabled(to, Advance(a, k)) && LinksNow(to, a) {
      StraightIsFound(to, a, k);
    }
  }

  // Its next step links its node to the last one of the chain.
  predicate LinksNow(st: State, a: Agent) {
    a in st.agents && st.agents[a].NextSeen? && st.agents[a].nx == End
    && NextOf(st, st.agents[a].t.addr) == End && OnChain(st, st.agents[a].t.addr)
  }

  lemma {:induction false} ValueStays(st: State, a: Agent, node: Addr, val: Val, events: seq<Event>)
    requires Inv(st) && Possible(st, events) && Straight(st, events) && Timely(st, events) && Unlinked(st, a, events)
    requires st.agents[a].node == node && DataOf(st, node) == val
    ensures var to := Run(st, events);
            a in to.agents && to.agents[a].Preparing() && to.agents[a].node == node && DataOf(to, node) == val
    decreases |events|
  {
    if events != [] {
      ValueStep(st, a, events[0]);
      StepInv(st, events[0]);
      ValueStays(Next(st, events[0]), a, node, val, events[1..]);
    }
  }

  lemma ValueStep(st: State, a: Agent, e: Event)
    requires Inv(st) && Enabled(st, e) && a in st.agents && st.agents[a].Preparing()
    requires a in Next(st, e).agents && Next(st, e).agents[a].Preparing()
    ensures Next(st, e).agents[a].node == st.agents[a].node
    ensures DataOf(Next(st, e), st.agents[a].node) == DataOf(st, st.agents[a].node)
  {
    assert AgentOk(st, a, st.agents[a]);
    if e.Advance? {
      AdvanceKeepsData(st, e.a, e.k);
      if e.a == a {
        PreparingStep(st, a, e.k);
      } else {
        OthersAgents(st, e.a, e.k, a);
      }
    }
  }

  lemma AdvanceKeepsData(st: State, a: Agent, k: nat)
    requires Enabled(st, Advance(a, k))
    ensures Next(st, Advance(a, k)).data == st.data
  {
  }

  lemma OthersAgents(st: State, a: Agent, k: nat, b: Agent)
    requires Enabled(st, Advance(a, k)) && b in st.agents && b != a
    ensures b in Next(st, Advance(a, k)).agents && Next(st, Advance(a, k)).agents[b] == st.agents[b]
  {
    if st.agents[a].Reserving() || st.agents[a].Failing? {
      DequeueOthers(st, a, k, b);
    } else {
      EnqueueOthers(st, a, k, b);
    }
  }

  lemma DequeueOthers(st: State, a: Agent, k: nat, b: Agent)
    requires Enabled(st, Advance(a, k)) && (st.agents[a].Reserving() || st.agents[a].Failing?)
    requires b in st.agents && b != a
    ensures b in DequeueStep(st, a, k).agents && DequeueStep(st, a, k).agents[b] == st.agents[b]
  {
  }

  lemma EnqueueOthers(st: State, a: Agent, k: nat, b: Agent)
    requires Enabled(st, Advance(a, k)) && !st.agents[a].Reserving() && !st.agents[a].Failing?
    requires b in st.agents && b != a
    ensures b in EnqueueStep(st, a, k).agents && EnqueueStep(st, a, k).agents[b] == st.agents[b]
  {
  }

  lemma PreparingStep(st: State, a: Agent, k: nat)
    requires Enabled(st, Advance(a, k)) && st.agents[a].Preparing()
    ensures var pc := Next(st, Advance(a, k)).agents[a]; pc.Preparing() ==> pc.node == st.agents[a].node
  {
  }

  ghost predicate AlwaysFifo(st: State, events: seq<Event>)
    requires Possible(st, events)
    decreases |events|
  {
    Fifo(st) && (events != [] ==> AlwaysFifo(Next(st, events[0]), events[1..]))
  }

  lemma {:induction false} FifoFrom(st: State, events: seq<Event>)
    requires Inv(st) && Possible(st, events) && Timely(st, events)
    ensures AlwaysFifo(st, events) <==> Straight(st, events)
    decreases |events|
  {
    FoundIsContents(st);
    if events != [] {
      if Astray(st, events[0]) {
        StrayIsLost(st, events[0]);
        assert !Fifo(Next(st, events[0]));
      } else {
        StepInv(st, events[0]);
        FifoFrom(Next(st, events[0]), events[1..]);
      }
    }
  }

  // Whatever the threads do, in whatever order: the queue is first in, first
  // out at every point of a run exactly if no link in it goes to a node that is
  // off the chain.
  lemma FifoExactlyIfStraight(start: State, events: seq<Event>)
    requires Init(start) && Possible(start, events) && Timely(start, events)
    ensures AlwaysFifo(start, events) <==> Straight(start, events)
  {
    InitInv(start);
    FifoFrom(start, events);
  }

  // Whoever lowered the size without finding it below 0 will find an element:
  // there are at least as many as there are such dequeuers.
  lemma ReservedIsThere(st: State, a: Agent)
    requires Reachable(st) && a in st.agents && st.agents[a].Reserving()
    ensures Contents(st) != [] && |Takers(st.agents)| <= |Contents(st)|
    ensures NextOf(st, st.head.addr) != End
  {
    ReachableInv(st);
    assert a in Takers(st.agents);
    assert LinkOk(st, 0);
  }

  // A dequeue reports an empty queue exactly when every element is spoken for:
  // by another dequeue under way, also one that will fail, or by an enqueue
  // that has linked but not counted it.
  lemma EmptyReportedExactly(st: State, a: Agent)
    requires Reachable(st) && IdleAgent(st, a)
    ensures Next(st, StartDequeue(a)).agents[a] == Failing <==> |Found(st)| <= |Debtors(st.agents)|
  {
    ReachableInv(st);
    FoundIsContents(st);
  }

  // A thread with nothing under way can begin a dequeue, and an enqueue of a new
  // node or of any that has been freed; freed nodes may be written by others.
  lemma Begins(st: State, a: Agent, node: Addr, x: Addr, val: Val)
    requires Reachable(st) && IdleAgent(st, a)
    ensures Enabled(st, StartDequeue(a))
    ensures Enabled(st, StartEnqueue(a, node, val)) <==> node !in st.next || Enabled(st, Scribble(node, x, val))
    ensures Enabled(st, Scribble(node, x, val)) <==>
              node in st.next && node !in st.chain && forall b :: !Prepares(st, b, node)
  {
    ReachableInv(st);
    if node in st.chain {
      ChainNodePlaced(st, node);
    }
    forall b | Prepares(st, b, node)
      ensures node in st.place && st.place[node] == With(b)
    {
      assert AgentOk(st, b, st.agents[b]);
    }
  }

  // A dequeue that reports empty, and is not disturbed, leaves everything as it
  // was.
  lemma EmptyDequeueAlone(st: State, a: Agent, k: nat)
    requires IdleAgent(st, a) && st.size <= 0 && k !in st.used
    ensures Enabled(st, StartDequeue(a)) && Enabled(Next(st, StartDequeue(a)), Advance(a, k))
    ensures Next(Next(st, StartDequeue(a)), Advance(a, k)) == st
  {
    assert st.agents[a := Failing][a := Idle] == st.agents;
  }

  // ---- what one thread does undisturbed ---------------------------------------------------------------------

  // No link goes astray and no word is taken for an earlier one.
  predicate Sound(st: State, e: Event) {
    !Astray(st, e) && !Stale(st, e)
  }

  // The events are possible in turn and end in `to`; if `sound`, each of them
  // is.
  ghost predicate Leads(sound: bool, from: State, events: seq<Event>, to: State)
    decreases |events|
  {
    if events == [] then from == to
    else Taken(sound, from, events[0]) && Leads(sound, Next(from, events[0]), events[1..], to)
  }

  predicate Taken(sound: bool, st: State, e: Event) {
    Enabled(st, e) && (sound ==> Sound(st, e))
  }

  lemma {:induction false} LeadsIsRun(sound: bool, from: State, events: seq<Event>, to: State)
    requires Leads(sound, from, events, to)
    ensures Possible(from, events) && Run(from, events) == to
    ensures sound ==> Straight(from, events) && Timely(from, events)
    decreases |events|
  {
    if events != [] {
      LeadsIsRun(sound, Next(from, events[0]), events[1..], to);
    }
  }

  lemma {:induction false} Together(sound: bool, a: State, first: seq<Event>, b: State, second: seq<Event>, c: State)
    requires Leads(sound, a, first, b) && Leads(sound, b, second, c)
    ensures Leads(sound, a, first + second, c)
    decreases |first|
  {
    if first == [] {
      assert first + second == second;
    } else {
      var e, rest := first[0], first[1..];
      Peeled(sound, a, first, b);
      Together(sound, Next(a, e), rest, b, second, c);
      Prepended(sound, a, e, rest + second, c);
      SplitSum(first, second);
    }
  }

  lemma Peeled(sound: bool, from: State, events: seq<Event>, to: State)
    requires Leads(sound, from, events, to) && events != []
    ensures Taken(sound, from, events[0]) && Leads(sound, Next(from, events[0]), events[1..], to)
  {
  }

  lemma SplitSum(first: seq<Event>, second: seq<Event>)
    requires first != []
    ensures first + second == [first[0]] + (first[1..] + second)
  {
  }

  lemma Prepended(sound: bool, from: State, e: Event, events: seq<Event>, to: State)
    requires Taken(sound, from, e) && Leads(sound, Next(from, e), events, to)
    ensures Leads(sound, from, [e] + events, to)
  {
    assert ([e] + events)[1..] == events;
  }

  function Moves(a: Agent, k: nat, n: nat): seq<Event> {
    if n == 0 then [] else [Advance(a, k)] + Moves(a, k, n - 1)
  }

  lemma MoveFirst(sound: bool, from: State, a: Agent, k: nat, next: State, n: nat, to: State)
    requires Taken(sound, from, Advance(a, k)) && Next(from, Advance(a, k)) == next
    requires Leads(sound, next, Moves(a, k, n), to)
    ensures Leads(sound, from, Moves(a, k, n + 1), to)
  {
    assert Moves(a, k, n + 1)[1..] == Moves(a, k, n);
  }

  // The state after an enqueue of `node` by thread a.
  function Enqueued(st: State, a: Agent, node: Addr, k: nat): State {
    st.(tail := Word(node, k), used := st.used + {k}, size := st.size + 1, next := st.next[st.tail.addr := To(node)],
        agents := st.agents[a := Idle], chain := st.chain + [node], tailAt := st.tailAt + 1,
        place := st.place[node := InQueue], entered := st.entered + [DataOf(st, node)])
  }

  lemma SoloReads(sound: bool, st: State, a: Agent, node: Addr, k: nat)
    requires a in st.agents && st.agents[a] == Filled(node) && NextOf(st, st.tail.addr) == End && k !in st.used
    ensures Leads(sound, st, Moves(a, k, 2), Goes(st, a, NextSeen(node, st.tail, End)))
  {
    var s1 := Goes(st, a, TailSeen(node, st.tail));
    var s2 := Goes(st, a, NextSeen(node, st.tail, End));
    MoveFirst(sound, s1, a, k, s2, 0, s2);
    MoveFirst(sound, st, a, k, s1, 1, s2);
  }

  function Settled(st: State, a: Agent, node: Addr, k: nat): State {
    st.(size := st.size + 1, tail := Word(node, k), used := st.used + {k}, tailAt := st.tailAt + 1,
        agents := st.agents[a := Idle])
  }

  lemma SoloSettles(sound: bool, st: State, a: Agent, node: Addr, k: nat)
    requires a in st.agents && st.agents[a] == Linked(node, st.tail) && k !in st.used
    ensures Leads(sound, st, Moves(a, k, 2), Settled(st, a, node, k))
  {
    var to := Settled(st, a, node, k);
    var s4 := Goes(st.(size := st.size + 1), a, Counted(node, st.tail));
    assert s4.agents[a := Idle] == to.agents;
    MoveFirst(sound, s4, a, k, to, 0, to);
    MoveFirst(sound, st, a, k, s4, 1, to);
  }

  lemma SettledIs(st: State, a: Agent, node: Addr, k: nat)
    requires a in st.agents && NextOf(st, st.tail.addr) == End && OnChain(st, st.tail.addr)
    ensures Settled(Attach(st, a, node, st.tail), a, node, k) == Enqueued(st, a, node, k)
  {
    assert Attach(st, a, node, st.tail).agents[a := Idle] == st.agents[a := Idle];
  }

  lemma SoloLinks(sound: bool, st: State, a: Agent, node: Addr, k: nat)
    requires a in st.agents && st.agents[a] == NextSeen(node, st.tail, End) && NextOf(st, st.tail.addr) == End
    requires OnChain(st, st.tail.addr) && k !in st.used
    ensures Leads(sound, st, Moves(a, k, 3), Enqueued(st, a, node, k))
  {
    var to := Enqueued(st, a, node, k);
    var s3 := Attach(st, a, node, st.tail);
    SoloSettles(sound, s3, a, node, k);
    SettledIs(st, a, node, k);
    assert Next(st, Advance(a, k)) == s3;
    MoveFirst(sound, st, a, k, s3, 2, to);
  }

  lemma SoloEnqueue(sound: bool, st: State, a: Agent, node: Addr, k: nat)
    requires a in st.agents && st.agents[a] == Filled(node) && NextOf(st, st.tail.addr) == End
    requires OnChain(st, st.tail.addr) && k !in st.used
    ensures Leads(sound, st, EnqueueMoves(a, k), Enqueued(st, a, node, k))
  {
    var s2 := Goes(st, a, NextSeen(node, st.tail, End));
    SoloReads(sound, st, a, node, k);
    SoloLinks(sound, s2, a, node, k);
    assert s2.agents[a := Idle] == st.agents[a := Idle];
    assert Enqueued(s2, a, node, k) == Enqueued(st, a, node, k);
    Together(sound, st, Moves(a, k, 2), s2, Moves(a, k, 3), Enqueued(st, a, node, k));
  }

  // The state after thread a has taken the first element.
  function Dequeued(st: State, a: Agent, first: Addr, k: nat): State {
    st.(head := Word(first, k), used := st.used + {k}, agents := st.agents[a := Idle],
        place := st.place[st.head.addr := Free], chain := if st.chain == [] then [] else st.chain[1..],
        tailAt := if st.tailAt == 0 then 0 else st.tailAt - 1, left := st.left + [DataOf(st, first)])
  }

  lemma SoloReadsWords(sound: bool, st: State, a: Agent, k: nat)
    requires a in st.agents && st.agents[a] == Reserved && k !in st.used
    ensures Leads(sound, st, Moves(a, k, 2), Goes(st, a, TailRead(st.head, st.tail)))
  {
    var s1 := Goes(st, a, HeadRead(st.head));
    var s2 := Goes(st, a, TailRead(st.head, st.tail));
    MoveFirst(sound, s1, a, k, s2, 0, s2);
    MoveFirst(sound, st, a, k, s1, 1, s2);
  }

  lemma SoloReadsNodes(sound: bool, st: State, a: Agent, first: Addr, k: nat)
    requires a in st.agents && st.agents[a] == TailRead(st.head, st.tail) && k !in st.used
    requires NextOf(st, st.head.addr) == To(first) && NextOf(st, st.tail.addr) == End
    ensures Leads(sound, st, Moves(a, k, 3), Goes(st, a, DataRead(st.head, first, DataOf(st, first))))
  {
    var s3 := Goes(st, a, HeadNextRead(st.head, st.tail, To(first)));
    var s4 := Goes(st, a, BothRead(st.head, st.tail, To(first), End));
    var s5 := Goes(st, a, DataRead(st.head, first, DataOf(st, first)));
    MoveFirst(sound, s4, a, k, s5, 0, s5);
    MoveFirst(sound, s3, a, k, s4, 1, s5);
    MoveFirst(sound, st, a, k, s3, 2, s5);
  }

  lemma SoloLooks(sound: bool, st: State, a: Agent, first: Addr, k: nat)
    requires a in st.agents && st.agents[a] == Reserved && k !in st.used
    requires NextOf(st, st.head.addr) == To(first) && NextOf(st, st.tail.addr) == End
    ensures Leads(sound, st, LookMoves(a, k), Goes(st, a, DataRead(st.head, first, DataOf(st, first))))
  {
    var s2 := Goes(st, a, TailRead(st.head, st.tail));
    var s5 := Goes(st, a, DataRead(st.head, first, DataOf(st, first)));
    SoloReadsWords(sound, st, a, k);
    SoloReadsNodes(sound, s2, a, first, k);
    assert Goes(s2, a, s5.agents[a]) == s5;
    Together(sound, st, Moves(a, k, 2), s2, Moves(a, k, 3), s5);
  }

  lemma SoloTakes(sound: bool, st: State, a: Agent, first: Addr, k: nat)
    requires a in st.agents && st.agents[a] == DataRead(st.head, first, DataOf(st, first)) && k !in st.used
    ensures Leads(sound, st, Moves(a, k, 1), Dequeued(st, a, first, k))
  {
    var to := Dequeued(st, a, first, k);
    MoveFirst(sound, st, a, k, to, 0, to);
  }

  // A dequeue that is not disturbed hands out the first element.
  lemma SoloDequeue(sound: bool, st: State, a: Agent, first: Addr, k: nat)
    requires a in st.agents && st.agents[a] == Reserved && k !in st.used
    requires NextOf(st, st.head.addr) == To(first) && NextOf(st, st.tail.addr) == End
    ensures Leads(sound, st, DequeueMoves(a, k), Dequeued(st, a, first, k))
  {
    var s5 := Goes(st, a, DataRead(st.head, first, DataOf(st, first)));
    SoloLooks(sound, st, a, first, k);
    SoloTakes(sound, s5, a, first, k);
    assert s5.agents[a := Idle] == st.agents[a := Idle];
    assert Dequeued(s5, a, first, k) == Dequeued(st, a, first, k);
    Together(sound, st, LookMoves(a, k), s5, Moves(a, k, 1), Dequeued(st, a, first, k));
  }

  function EnqueueMoves(a: Agent, k: nat): seq<Event> {
    Moves(a, k, 2) + Moves(a, k, 3)
  }

  function LookMoves(a: Agent, k: nat): seq<Event> {
    Moves(a, k, 2) + Moves(a, k, 3)
  }

  function DequeueMoves(a: Agent, k: nat): seq<Event> {
    LookMoves(a, k) + Moves(a, k, 1)
  }

  // A dequeue that got past the size succeeds if the others keep still and the
  // tail is not behind.
  lemma DequeueSucceedsAlone(st: State, a: Agent, k: nat)
    requires Reachable(st) && a in st.agents && st.agents[a] == Reserved && k !in st.used
    requires NextOf(st, st.tail.addr) == End
    ensures Found(st) != []
    ensures Possible(st, DequeueMoves(a, k)) && Run(st, DequeueMoves(a, k)).left == st.left + [Found(st)[0]]
  {
    ReachableInv(st);
    FoundIsContents(st);
    ReservedIsThere(st, a);
    HeadHasNext(st, NextOf(st, st.head.addr).addr);
    SoloDequeue(true, st, a, st.chain[1], k);
    LeadsIsRun(true, st, DequeueMoves(a, k), Dequeued(st, a, st.chain[1], k));
    assert st.chain[1..][0] == st.chain[1];
  }

  // Whole calls.
  function EnqueueCall(a: Agent, node: Addr, val: Val, k: nat): seq<Event> {
    [StartEnqueue(a, node, val)] + EnqueueMoves(a, k)
  }

  function DequeueCall(a: Agent, k: nat): seq<Event> {
    [StartDequeue(a)] + DequeueMoves(a, k)
  }

  lemma EnqueueAlone(sound: bool, st: State, a: Agent, node: Addr, val: Val, k: nat)
    requires Enabled(st, StartEnqueue(a, node, val)) && NextOf(st, st.tail.addr) == End && OnChain(st, st.tail.addr)
    requires k !in st.used
    ensures Leads(sound, st, EnqueueCall(a, node, val, k), Enqueued(Next(st, StartEnqueue(a, node, val)), a, node, k))
  {
    var s1 := Next(st, StartEnqueue(a, node, val));
    SoloEnqueue(sound, s1, a, node, k);
    Prepended(sound, st, StartEnqueue(a, node, val), EnqueueMoves(a, k), Enqueued(s1, a, node, k));
  }

  lemma DequeueAlone(sound: bool, st: State, a: Agent, first: Addr, k: nat)
    requires Enabled(st, StartDequeue(a)) && st.size > 0 && k !in st.used
    requires NextOf(st, st.head.addr) == To(first) && NextOf(st, st.tail.addr) == End
    ensures Leads(sound, st, DequeueCall(a, k), Dequeued(Next(st, StartDequeue(a)), a, first, k))
  {
    var s1 := Next(st, StartDequeue(a));
    SoloDequeue(sound, s1, a, first, k);
    Prepended(sound, st, StartDequeue(a), DequeueMoves(a, k), Dequeued(s1, a, first, k));
  }

  lemma FourParts(sound: bool, s0: State, e0: seq<Event>, s1: State, e1: seq<Event>, s2: State, e2: seq<Event>,
                  s3: State, e3: seq<Event>, s4: State)
    requires Leads(sound, s0, e0, s1) && Leads(sound, s1, e1, s2)
    requires Leads(sound, s2, e2, s3) && Leads(sound, s3, e3, s4)
    ensures Leads(sound, s0, e0 + e1 + e2 + e3, s4)
  {
    Together(sound, s0, e0, s1, e1, s2);
    Together(sound, s0, e0 + e1, s2, e2, s3);
    Together(sound, s0, e0 + e1 + e2, s3, e3, s4);
  }

  // ---- every step counts ---------------------------------------------------------------------------------------

  // How far the tail is behind the last node.
  function Lag(st: State): int {
    |st.chain| - 1 - st.tailAt
  }

  // Steps left at most if nobody disturbs: each turn of a loop that finds the
  // tail behind moves it on by one; a turn begun with words or links that have
  // changed since comes on top.
  function Remaining(st: State, pc: Pc): int {
    match pc
    case Idle => 0
    case Filled(_) => 5 + 3 * Lag(st)
    case TailSeen(_, t) => if t == st.tail then 4 + 3 * Lag(st) else 7 + 3 * Lag(st)
    case NextSeen(_, t, nx) =>
      if t == st.tail && nx == NextOf(st, t.addr) then 3 + 3 * Lag(st) else 6 + 3 * Lag(st)
    case Linked(_, _) => 2
    case Counted(_, _) => 1
    case Reserved => 6 + 5 * Lag(st)
    case HeadRead(h) => if h == st.head then 5 + 5 * Lag(st) else 11 + 5 * Lag(st)
    case TailRead(h, t) => if h == st.head && t == st.tail then 4 + 5 * Lag(st) else 10 + 5 * Lag(st)
    case HeadNextRead(h, t, nx) =>
      if h == st.head && t == st.tail && nx == NextOf(st, h.addr) then 3 + 5 * Lag(st) else 9 + 5 * Lag(st)
    case BothRead(h, t, nx, tnx) =>
      if h == st.head && t == st.tail && nx == NextOf(st, h.addr) && tnx == NextOf(st, t.addr)
        then 2 + 5 * Lag(st) else 8 + 5 * Lag(st)
    case DataRead(h, _, _) => if h == st.head then 1 else 7 + 5 * Lag(st)
    case Failing => 1
  }

  // Every step brings its own call nearer to its end and leaves the others
  // where they are. So a call that is left alone ends, whatever it read before,
  // in at most eleven steps and five for each node the tail is behind.
  lemma StepsFinish(st: State, a: Agent, k: nat)
    requires Reachable(st) && Enabled(st, Advance(a, k)) && Sound(st, Advance(a, k))
    ensures var st' := Next(st, Advance(a, k));
            && st'.agents == st.agents[a := st'.agents[a]]
            && 0 <= Remaining(st', st'.agents[a]) < Remaining(st, st.agents[a]) <= 11 + 5 * Lag(st) && Lag(st) >= 0
  {
    ReachableInv(st);
    assert AgentOk(st, a, st.agents[a]);
    if st.agents[a].Reserving() || st.agents[a].Failing? {
      DequeueShortens(st, a, k);
    } else {
      EnqueueShortens(st, a, k);
    }
  }

  predicate Shortens(st: State, a: Agent, st': State)
    requires a in st.agents
  {
    && a in st'.agents && st'.agents == st.agents[a := st'.agents[a]]
    && 0 <= Remaining(st', st'.agents[a]) < Remaining(st, st.agents[a])
  }

  // A step that changes no more than the size besides its own call.
  lemma MovesShorten(st: State, a: Agent, size: int, pc: Pc)
    requires a in st.agents && 0 <= Remaining(st, pc) < Remaining(st, st.agents[a])
    ensures Shortens(st, a, Goes(st.(size := size), a, pc))
  {
  }

  lemma EnqueueShortens(st: State, a: Agent, k: nat)
    requires Inv(st) && Enabled(st, Advance(a, k)) && Sound(st, Advance(a, k))
    requires !st.agents[a].Reserving() && !st.agents[a].Failing?
    ensures Shortens(st, a, EnqueueStep(st, a, k))
  {
    var pc := st.agents[a];
    assert AgentOk(st, a, pc);
    LagsExactly(st);
    match pc
    case Filled(node) => MovesShorten(st, a, st.size, TailSeen(node, st.tail));
    case TailSeen(node, t) => MovesShorten(st, a, st.size, NextSeen(node, t, NextOf(st, t.addr)));
    case NextSeen(node, t, nx) =>
      if nx.To? {
        HelpShortens(st, a, k, t, nx.addr, Filled(node));
      } else if NextOf(st, t.addr) != End {
        MovesShorten(st, a, st.size, Filled(node));
      } else {
        LinkShortens(st, a, node, t);
      }
    case Linked(node, t) => MovesShorten(st, a, st.size + 1, Counted(node, t));
    case Counted(node, t) => SettleShortens(st, a, k, t, node);
  }

  // The tail moves on by one if it is still the word that was read.
  lemma TailMoves(st: State, t: Word, to: Addr, k: nat)
    requires ChainOk(st) && BehindTail(st, t, To(to)) && Telling(st.tail, t)
    ensures Lag(SwingTail(st, t, to, k)) == (if t == st.tail then Lag(st) - 1 else Lag(st)) >= 0
    ensures SwingTail(st, t, to, k).agents == st.agents
  {
    if t == st.tail {
      TailHasNext(st, to);
    }
  }

  lemma HelpShortens(st: State, a: Agent, k: nat, t: Word, to: Addr, pc: Pc)
    requires ChainOk(st) && BehindTail(st, t, To(to)) && Telling(st.tail, t) && a in st.agents
    requires pc.Filled? || pc == Reserved
    requires Remaining(st, pc) < Remaining(st, st.agents[a])
             || (t == st.tail && Remaining(st, pc) < Remaining(st, st.agents[a]) + if pc.Filled? then 3 else 5)
    ensures Shortens(st, a, Goes(SwingTail(st, t, to, k), a, pc))
  {
    TailMoves(st, t, to, k);
  }

  lemma LinkShortens(st: State, a: Agent, node: Addr, t: Word)
    requires a in st.agents && Remaining(st, st.agents[a]) > 2 && NextOf(st, t.addr) == End
    ensures Shortens(st, a, Attach(st, a, node, t))
  {
  }

  lemma SettleShortens(st: State, a: Agent, k: nat, t: Word, node: Addr)
    requires a in st.agents && Remaining(st, st.agents[a]) > 0
    ensures Shortens(st, a, Goes(SwingTail(st, t, node, k), a, Idle))
  {
  }

  // Nothing is behind the tail exactly if it does not lag.
  lemma LagsExactly(st: State)
    requires ChainOk(st)
    ensures Lag(st) >= 0 && (NextOf(st, st.tail.addr) == End <==> Lag(st) == 0)
  {
    assert LinkOk(st, st.tailAt);
  }

  lemma DequeueShortens(st: State, a: Agent, k: nat)
    requires Inv(st) && Enabled(st, Advance(a, k)) && Sound(st, Advance(a, k))
    requires st.agents[a].Reserving() || st.agents[a].Failing?
    ensures Shortens(st, a, DequeueStep(st, a, k))
  {
    var pc := st.agents[a];
    assert AgentOk(st, a, pc);
    LagsExactly(st);
    match pc
    case BothRead(h, t, nx, tnx) =>
      if tnx.To? {
        HelpShortens(st, a, k, t, tnx.addr, Reserved);
      } else {
        LookShortens(st, a, h, t, nx);
      }
    case DataRead(h, nx, val) => TakeShortens(st, a, h, nx, val, k);
    case Failing => MovesShorten(st, a, st.size + 1, Idle);
    case _ => ReadShortens(st, a, k);
  }

  lemma ReadShortens(st: State, a: Agent, k: nat)
    requires Enabled(st, Advance(a, k)) && Lag(st) >= 0
    requires st.agents[a].Reserved? || st.agents[a].HeadRead? || st.agents[a].TailRead? || st.agents[a].HeadNextRead?
    ensures Shortens(st, a, DequeueStep(st, a, k))
  {
    match st.agents[a]
    case Reserved => MovesShorten(st, a, st.size, HeadRead(st.head));
    case HeadRead(h) => MovesShorten(st, a, st.size, TailRead(h, st.tail));
    case TailRead(h, t) => MovesShorten(st, a, st.size, HeadNextRead(h, t, NextOf(st, h.addr)));
    case HeadNextRead(h, t, nx) => MovesShorten(st, a, st.size, BothRead(h, t, nx, NextOf(st, t.addr)));
  }

  // There is an element for whoever has lowered the size.
  lemma LookShortens(st: State, a: Agent, h: Word, t: Word, nx: Link)
    requires Inv(st) && a in st.agents && st.agents[a] == BothRead(h, t, nx, End)
    ensures Shortens(st, a, if nx == End then Goes(st, a, Reserved)
                            else Goes(st, a, DataRead(h, nx.addr, DataOf(st, nx.addr))))
  {
    LagsExactly(st);
    assert a in Takers(st.agents);
    assert LinkOk(st, 0);
    MovesShorten(st, a, st.size, if nx == End then Reserved else DataRead(h, nx.addr, DataOf(st, nx.addr)));
  }

  lemma TakeShortens(st: State, a: Agent, h: Word, nx: Addr, val: Val, k: nat)
    requires ChainOk(st) && a in st.agents && st.agents[a] == DataRead(h, nx, val) && Telling(st.head, h)
    ensures Shortens(st, a, SwingHead(st, a, h, nx, val, k))
  {
    LagsExactly(st);
    if h != st.head {
      MovesShorten(st, a, st.size, Reserved);
    }
  }

  // ---- a node used again too early ---------------------------------------------------------------------------

  const EMPTY := State(Word(0, 0), Word(0, 0), 0, map[0 := End], map[0 := 0], map[0 := Idle, 1 := Idle],
                       {0}, [0], 0, map[0 := InQueue], [], [])

  // Thread 0 is about to link node 1, with value 10, to node 0.
  const WAITING := NextSeen(1, Word(0, 0), End)

  const BEGUN := State(Word(0, 0), Word(0, 0), 0, map[0 := End, 1 := End], map[0 := 0, 1 := 10],
                       map[0 := WAITING, 1 := Idle], {0}, [0], 0, map[0 := InQueue, 1 := With(0)], [], [])
  const FILLED := State(Word(0, 0), Word(2, 1), 1, map[0 := To(2), 1 := End, 2 := End],
                        map[0 := 0, 1 := 10, 2 := 99], map[0 := WAITING, 1 := Idle],
                        {0, 1}, [0, 2], 1, map[0 := InQueue, 1 := With(0), 2 := InQueue], [99], [])
  const PASSED := State(Word(2, 2), Word(2, 1), 0, map[0 := To(2), 1 := End, 2 := End],
                        map[0 := 0, 1 := 10, 2 := 99], map[0 := WAITING, 1 := Idle],
                        {0, 1, 2}, [2], 0, map[0 := Free, 1 := With(0), 2 := InQueue], [99], [99])

  // Meanwhile thread 1 has passed value 99 through the queue, so node 0 is free
  // again, and has got it for its next value, 20.
  const REUSED := State(Word(2, 2), Word(2, 1), 0, map[0 := End, 1 := End, 2 := End], map[0 := 20, 1 := 10, 2 := 99],
                        map[0 := WAITING, 1 := Filled(0)],
                        {0, 1, 2}, [2], 0, map[0 := With(1), 1 := With(0), 2 := InQueue], [99], [99])

  lemma FirstBegins()
    ensures Leads(true, EMPTY, [StartEnqueue(0, 1, 10)] + Moves(0, 1, 2), BEGUN)
  {
    var s1 := Next(EMPTY, StartEnqueue(0, 1, 10));
    SoloReads(true, s1, 0, 1, 1);
    Prepended(true, EMPTY, StartEnqueue(0, 1, 10), Moves(0, 1, 2), BEGUN);
  }

  lemma SecondFills()
    ensures Leads(true, BEGUN, EnqueueCall(1, 2, 99, 1), FILLED)
  {
    EnqueueAlone(true, BEGUN, 1, 2, 99, 1);
    assert Enqueued(Next(BEGUN, StartEnqueue(1, 2, 99)), 1, 2, 1) == FILLED;
  }

  lemma SecondTakes()
    ensures Leads(true, FILLED, DequeueCall(1, 2), PASSED)
  {
    DequeueAlone(true, FILLED, 1, 2, 2);
    assert Dequeued(Next(FILLED, StartDequeue(1)), 1, 2, 2) == PASSED;
  }

  lemma ReusedLinks()
    ensures PASSED.next[0 := End] == REUSED.next
  {
  }

  lemma ReusedData()
    ensures PASSED.data[0 := 20] == REUSED.data
  {
  }

  lemma ReusedPlaces()
    ensures PASSED.place[0 := With(1)] == REUSED.place
    ensures PASSED.agents[1 := Filled(0)] == REUSED.agents
  {
  }

  lemma ReusedIs()
    ensures Next(PASSED, StartEnqueue(1, 0, 20)) == REUSED
  {
    ReusedLinks();
    ReusedData();
    ReusedPlaces();
  }

  lemma SecondReuses()
    ensures Leads(true, PASSED, [StartEnqueue(1, 0, 20)] + [], REUSED)
  {
    ReusedIs();
    Prepended(true, PASSED, StartEnqueue(1, 0, 20), [], REUSED);
  }

  const BEFORE := ([StartEnqueue(0, 1, 10)] + Moves(0, 1, 2)) + EnqueueCall(1, 2, 99, 1) + DequeueCall(1, 2)
                  + ([StartEnqueue(1, 0, 20)] + [])

  lemma NodeZeroComesBack()
    ensures Leads(true, EMPTY, BEFORE, REUSED)
  {
    FirstBegins();
    SecondFills();
    SecondTakes();
    SecondReuses();
    FourParts(true, EMPTY, [StartEnqueue(0, 1, 10)] + Moves(0, 1, 2), BEGUN, EnqueueCall(1, 2, 99, 1), FILLED,
              DequeueCall(1, 2), PASSED, [StartEnqueue(1, 0, 20)] + [], REUSED);
  }

  // Thread 0 has finished its enqueue of 10.
  const ENDED := State(Word(2, 2), Word(2, 1), 1, map[0 := To(1), 1 := End, 2 := End], map[0 := 20, 1 := 10, 2 := 99],
                       map[0 := Idle, 1 := Filled(0)],
                       {0, 1, 2}, [2], 0, map[0 := With(1), 1 := InQueue, 2 := InQueue], [99, 10], [99])

  // A link elsewhere than at the tail leaves the tail alone.
  lemma SettlesElsewhere(st: State, a: Agent, node: Addr, t: Word, k: nat)
    requires a in st.agents && st.agents[a] == Linked(node, t) && !Same(st.tail, t) && k !in st.used
    ensures Leads(false, st, Moves(a, k, 2), Goes(st.(size := st.size + 1), a, Idle))
  {
    var to := Goes(st.(size := st.size + 1), a, Idle);
    var s2 := Goes(st.(size := st.size + 1), a, Counted(node, t));
    assert s2.agents[a := Idle] == to.agents;
    MoveFirst(false, s2, a, k, to, 0, to);
    MoveFirst(false, st, a, k, s2, 1, to);
  }

  const STRAYED := Attach(REUSED, 0, 1, Word(0, 0))

  lemma EndedNodes()
    ensures REUSED.next[0 := To(1)] == ENDED.next
    ensures REUSED.place[1 := InQueue] == ENDED.place
  {
  }

  lemma EndedIs()
    ensures Goes(STRAYED.(size := STRAYED.size + 1), 0, Idle) == ENDED
  {
    EndedNodes();
    assert REUSED.agents[0 := Linked(1, Word(0, 0))][0 := Idle] == ENDED.agents;
  }

  lemma LinksAstray()
    ensures Astray(REUSED, Advance(0, 3)) && Enabled(REUSED, Advance(0, 3)) && Next(REUSED, Advance(0, 3)) == STRAYED
    ensures STRAYED.agents[0] == Linked(1, Word(0, 0)) && STRAYED.tail == Word(2, 1) && 3 !in STRAYED.used
  {
  }

  lemma LinkedAstray()
    ensures Astray(REUSED, Advance(0, 3)) && Leads(false, REUSED, Moves(0, 3, 3), ENDED)
  {
    LinksAstray();
    EndedIs();
    SettlesElsewhere(STRAYED, 0, 1, Word(0, 0), 3);
    MoveFirst(false, REUSED, 0, 3, STRAYED, 2, ENDED);
  }

  // Thread 0 has enqueued 11 as well.
  const SECOND := State(Word(2, 2), Word(3, 3), 2, map[0 := To(1), 1 := End, 2 := To(3), 3 := End],
                        map[0 := 20, 1 := 10, 2 := 99, 3 := 11], map[0 := Idle, 1 := Filled(0)],
                        {0, 1, 2, 3}, [2, 3], 1,
                        map[0 := With(1), 1 := InQueue, 2 := InQueue, 3 := InQueue], [99, 10, 11], [99])

  // And thread 1 has linked its node 0.
  const OVERTAKEN := State(Word(2, 2), Word(0, 4), 3, map[0 := To(1), 1 := End, 2 := To(3), 3 := To(0)],
                           map[0 := 20, 1 := 10, 2 := 99, 3 := 11], map[0 := Idle, 1 := Idle],
                           {0, 1, 2, 3, 4}, [2, 3, 0], 2,
                           map[0 := InQueue, 1 := InQueue, 2 := InQueue, 3 := InQueue], [99, 10, 11, 20], [99])

  lemma SecondNodes()
    ensures ENDED.next[3 := End][2 := To(3)] == SECOND.next && ENDED.data[3 := 11] == SECOND.data
  {
  }

  lemma SecondIs()
    ensures Enqueued(Next(ENDED, StartEnqueue(0, 3, 11)), 0, 3, 3) == SECOND
  {
    SecondNodes();
    assert ENDED.place[3 := With(0)][3 := InQueue] == SECOND.place;
    assert ENDED.agents[0 := Filled(3)][0 := Idle] == SECOND.agents;
  }

  lemma FirstGoesOn()
    ensures Leads(false, ENDED, EnqueueCall(0, 3, 11, 3), SECOND)
  {
    EnqueueAlone(false, ENDED, 0, 3, 11, 3);
    SecondIs();
  }

  lemma OvertakenIs()
    ensures Enqueued(SECOND, 1, 0, 4) == OVERTAKEN
  {
  }

  lemma SecondLinks()
    ensures Leads(false, SECOND, EnqueueMoves(1, 4), OVERTAKEN)
  {
    SoloEnqueue(false, SECOND, 1, 0, 4);
    OvertakenIs();
  }

  lemma WalkOvertaken()
    ensures Walk(OVERTAKEN, OVERTAKEN.head.addr, 9) == [11, 20, 10]
  {
  }

  // Without that condition the queue is not first in, first out: thread 0
  // finishes its enqueue of 10, then starts and finishes that of 11, and 11
  // comes out first. In between the size counts an element nobody can reach.
  lemma OneThreadOvertakesItself()
    ensures Init(EMPTY) && Leads(true, EMPTY, BEFORE, REUSED)
    ensures Astray(REUSED, Advance(0, 3)) && Leads(false, REUSED, Moves(0, 3, 3), ENDED)
    ensures ENDED.agents[0] == Idle && ENDED.entered == [99, 10] && ENDED.size == 1
    ensures Walk(ENDED, ENDED.head.addr, 9) == []
    ensures Leads(false, ENDED, EnqueueCall(0, 3, 11, 3), SECOND)
    ensures Leads(false, SECOND, EnqueueMoves(1, 4), OVERTAKEN)
    ensures OVERTAKEN.left == [99] && OVERTAKEN.entered == [99, 10, 11, 20]
    ensures Walk(OVERTAKEN, OVERTAKEN.head.addr, 9) == [11, 20, 10]
  {
    assert InitWith(EMPTY, 0);
    NodeZeroComesBack();
    LinkedAstray();
    FirstGoesOn();
    SecondLinks();
    WalkOvertaken();
  }

  // ---- a number used again ---------------------------------------------------------------------------------

  const IDLING := map[0 := Idle, 1 := Idle]
  const ONE := State(Word(0, 0), Word(1, 1), 1, map[0 := To(1), 1 := End], map[0 := 0, 1 := 10], IDLING,
                     {0, 1}, [0, 1], 1, map[0 := InQueue, 1 := InQueue], [10], [])
  const TWO := State(Word(0, 0), Word(2, 2), 2, map[0 := To(1), 1 := To(2), 2 := End], map[0 := 0, 1 := 10, 2 := 20],
                     IDLING, {0, 1, 2}, [0, 1, 2], 2, map[0 := InQueue, 1 := InQueue, 2 := InQueue], [10, 20], [])

  // Thread 1 is about to take 10, node 1's value, by moving the head on from
  // node 0.
  const TAKING := map[0 := Idle, 1 := DataRead(Word(0, 0), 1, 10)]
  const LOOKED := TWO.(size := 1, agents := TAKING)
  const TAKEN := State(Word(1, 3), Word(2, 2), 0, map[0 := To(1), 1 := To(2), 2 := End], map[0 := 0, 1 := 10, 2 := 20],
                       TAKING, {0, 1, 2, 3}, [1, 2], 1, map[0 := Free, 1 := InQueue, 2 := InQueue], [10, 20], [10])
  const THREE := State(Word(1, 3), Word(0, 4), 1, map[0 := End, 1 := To(2), 2 := To(0)], map[0 := 30, 1 := 10, 2 := 20],
                       TAKING, {0, 1, 2, 3, 4}, [1, 2, 0], 2, map[0 := InQueue, 1 := InQueue, 2 := InQueue],
                       [10, 20, 30], [10])
  const FEWER := State(Word(2, 5), Word(0, 4), 0, map[0 := End, 1 := To(2), 2 := To(0)], map[0 := 30, 1 := 10, 2 := 20],
                       TAKING, {0, 1, 2, 3, 4, 5}, [2, 0], 1, map[0 := InQueue, 1 := Free, 2 := InQueue],
                       [10, 20, 30], [10, 20])
  const FOUR := State(Word(2, 5), Word(1, 6), 1, map[0 := To(1), 1 := End, 2 := To(0)], map[0 := 30, 1 := 40, 2 := 20],
                      TAKING, {0, 1, 2, 3, 4, 5, 6}, [2, 0, 1], 2, map[0 := InQueue, 1 := InQueue, 2 := InQueue],
                      [10, 20, 30, 40], [10, 20])

  // Others have handed out 10, 20 and 30, and node 0 is the first again, in a
  // word with number 2^17.
  const WRAPPED := State(Word(0, 0x2_0000), Word(1, 6), 0, map[0 := To(1), 1 := End, 2 := To(0)],
                         map[0 := 30, 1 := 40, 2 := 20], TAKING, {0, 1, 2, 3, 4, 5, 6, 0x2_0000}, [0, 1], 1,
                         map[0 := InQueue, 1 := InQueue, 2 := Free], [10, 20, 30, 40], [10, 20, 30])
  const TWICE := State(Word(1, 7), Word(1, 6), 0, map[0 := To(1), 1 := End, 2 := To(0)],
                       map[0 := 30, 1 := 40, 2 := 20], IDLING, {0, 1, 2, 3, 4, 5, 6, 7, 0x2_0000}, [1], 0,
                       map[0 := Free, 1 := InQueue, 2 := Free], [10, 20, 30, 40], [10, 20, 30, 10])

  lemma OneEnters()
    ensures Leads(true, EMPTY, EnqueueCall(0, 1, 10, 1), ONE)
  {
    EnqueueAlone(true, EMPTY, 0, 1, 10, 1);
    assert Enqueued(Next(EMPTY, StartEnqueue(0, 1, 10)), 0, 1, 1) == ONE;
  }

  lemma TwoEnter()
    ensures Leads(true, ONE, EnqueueCall(0, 2, 20, 2), TWO)
  {
    EnqueueAlone(true, ONE, 0, 2, 20, 2);
    assert Enqueued(Next(ONE, StartEnqueue(0, 2, 20)), 0, 2, 2) == TWO;
  }

  lemma SecondLooks()
    ensures Leads(true, TWO, [StartDequeue(1)] + LookMoves(1, 3), LOOKED)
  {
    var s1 := Next(TWO, StartDequeue(1));
    SoloLooks(true, s1, 1, 1, 3);
    assert Goes(s1, 1, DataRead(Word(0, 0), 1, 10)) == LOOKED;
    Prepended(true, TWO, StartDequeue(1), LookMoves(1, 3), LOOKED);
  }

  lemma FirstTakes()
    ensures Leads(true, LOOKED, DequeueCall(0, 3), TAKEN)
  {
    DequeueAlone(true, LOOKED, 0, 1, 3);
    assert Dequeued(Next(LOOKED, StartDequeue(0)), 0, 1, 3) == TAKEN;
  }

  lemma ThreeNodes()
    ensures TAKEN.next[0 := End][2 := To(0)] == THREE.next && TAKEN.data[0 := 30] == THREE.data
  {
  }

  lemma ThreeIs()
    ensures Enqueued(Next(TAKEN, StartEnqueue(0, 0, 30)), 0, 0, 4) == THREE
  {
    ThreeNodes();
    assert TAKEN.place[0 := With(0)][0 := InQueue] == THREE.place;
    assert TAKEN.agents[0 := Filled(0)][0 := Idle] == THREE.agents;
  }

  lemma ThreeEnter()
    ensures Leads(true, TAKEN, EnqueueCall(0, 0, 30, 4), THREE)
  {
    EnqueueAlone(true, TAKEN, 0, 0, 30, 4);
    ThreeIs();
  }

  lemma FirstTakesMore()
    ensures Leads(true, THREE, DequeueCall(0, 5), FEWER)
  {
    DequeueAlone(true, THREE, 0, 2, 5);
    assert Dequeued(Next(THREE, StartDequeue(0)), 0, 2, 5) == FEWER;
  }

  lemma FourNodes()
    ensures FEWER.next[1 := End][0 := To(1)] == FOUR.next && FEWER.data[1 := 40] == FOUR.data
  {
  }

  lemma FourIs()
    ensures Enqueued(Next(FEWER, StartEnqueue(0, 1, 40)), 0, 1, 6) == FOUR
  {
    FourNodes();
    assert FEWER.place[1 := With(0)][1 := InQueue] == FOUR.place;
    assert FEWER.agents[0 := Filled(1)][0 := Idle] == FOUR.agents;
  }

  lemma FourEnter()
    ensures Leads(true, FEWER, EnqueueCall(0, 1, 40, 6), FOUR)
  {
    EnqueueAlone(true, FEWER, 0, 1, 40, 6);
    FourIs();
  }

  lemma NumberWraps()
    ensures Leads(true, FOUR, DequeueCall(0, 0x2_0000), WRAPPED)
  {
    DequeueAlone(true, FOUR, 0, 0, 0x2_0000);
    assert Dequeued(Next(FOUR, StartDequeue(0)), 0, 0, 0x2_0000) == WRAPPED;
  }

  const ENTER := EnqueueCall(0, 1, 10, 1) + EnqueueCall(0, 2, 20, 2) + ([StartDequeue(1)] + LookMoves(1, 3))
                 + DequeueCall(0, 3)
  const CYCLE := EnqueueCall(0, 0, 30, 4) + DequeueCall(0, 5) + EnqueueCall(0, 1, 40, 6) + DequeueCall(0, 0x2_0000)

  lemma Entered()
    ensures Leads(true, EMPTY, ENTER, TAKEN)
  {
    OneEnters();
    TwoEnter();
    SecondLooks();
    FirstTakes();
    FourParts(true, EMPTY, EnqueueCall(0, 1, 10, 1), ONE, EnqueueCall(0, 2, 20, 2), TWO,
              [StartDequeue(1)] + LookMoves(1, 3), LOOKED, DequeueCall(0, 3), TAKEN);
  }

  lemma Cycled()
    ensures Leads(true, TAKEN, CYCLE, WRAPPED)
  {
    ThreeEnter();
    FirstTakesMore();
    FourEnter();
    NumberWraps();
    FourParts(true, TAKEN, EnqueueCall(0, 0, 30, 4), THREE, DequeueCall(0, 5), FEWER,
              EnqueueCall(0, 1, 40, 6), FOUR, DequeueCall(0, 0x2_0000), WRAPPED);
  }

  // 17 bits are not enough: a dequeue that stands still while the numbers go
  // once round hands out 10 a second time, and 40 never comes out.
  lemma OneValueTwice()
    ensures Init(EMPTY) && Leads(true, EMPTY, ENTER + CYCLE, WRAPPED)
    ensures Stale(WRAPPED, Advance(1, 7)) && Next(WRAPPED, Advance(1, 7)) == TWICE
    ensures TWICE.left == [10, 20, 30, 10] && TWICE.entered == [10, 20, 30, 40]
    ensures TWICE.size == 0 && NextOf(TWICE, TWICE.head.addr) == End
  {
    assert InitWith(EMPTY, 0);
    Entered();
    Cycled();
    Together(true, EMPTY, ENTER, TAKEN, CYCLE, WRAPPED);
    TakesAgain();
  }

  lemma TakesAgain()
    ensures Stale(WRAPPED, Advance(1, 7)) && Next(WRAPPED, Advance(1, 7)) == TWICE
  {
    assert Same(WRAPPED.head, Word(0, 0)) && WRAPPED.head != Word(0, 0);
    SwingsAgain();
  }

  lemma SwingsAgain()
    ensures SwingHead(WRAPPED, 1, Word(0, 0), 1, 10, 7) == TWICE
  {
    assert TAKING[1 := Idle] == IDLING;
    assert WRAPPED.place[0 := Free] == TWICE.place;
    assert WRAPPED.chain[1..] == TWICE.chain;
  }
}
