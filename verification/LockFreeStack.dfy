// The lock-free stack under the memory pools and the index stack. The top is a
// word that packs a node's address with the low 17 bits of a push counter, so
// that a slow pop notices when the node it saw has been popped and pushed
// again, as long as the counter has not come round.
module LockFreeStack {
  type Addr = nat
  type Agent = nat

  // 64 bits less 47 address bits.
  const TAGS := 0x2_0000

  datatype Word = Null | Ptr(addr: Addr, tag: nat)

  // One push: the node and the value of the counter it drew.
  datatype Item = Item(addr: Addr, serial: nat)

  function Pack(item: Item): Word {
    Ptr(item.addr, item.serial % TAGS)
  }

  // How far an activity is. The item a pop remembers is only recorded: its
  // steps use the word alone.
  datatype Pc =
    | Idle
    | Drawing(node: Addr)                         // push: increments the counter next
    | Linking(item: Item)                         // push: reads the top and sets _next
    | Pushing(item: Item, seen: Word)             // push: compare-and-swap next
    | Looking(seen: Word, item: Item)             // pop: has read the top, reads _next
    | Popping(seen: Word, item: Item, next: Word) // pop: compare-and-swap next

  datatype Place = OnStack | Out | With(a: Agent)

  // next: the _next field of every node there is. The last three fields are
  // recorded for the proof: the pushes on the stack, top first; the last push of
  // each node; who has each node.
  datatype State = State(top: Word, next: map<Addr, Word>, count: nat, agents: map<Agent, Pc>,
                         stack: seq<Item>, last: map<Addr, nat>, place: map<Addr, Place>)

  // NewNode: a pop that finds the stack empty makes a node. Scribble: whoever
  // has a node may overwrite its fields.
  datatype Event =
    | NewNode(a: Agent, node: Addr)
    | StartPop(a: Agent)
    | StartPush(a: Agent, node: Addr)
    | Scribble(node: Addr, w: Word)
    | Advance(a: Agent)

  predicate IdleAgent(st: State, a: Agent) {
    a in st.agents && st.agents[a] == Idle
  }

  predicate IsOut(st: State, node: Addr) {
    node in st.place && st.place[node] == Out && node in st.next
  }

  predicate Enabled(st: State, e: Event) {
    match e
    case NewNode(a, node) => IdleAgent(st, a) && st.top == Null && node !in st.next && node !in st.place
    case StartPop(a) => IdleAgent(st, a) && st.top != Null
    case StartPush(a, node) => IdleAgent(st, a) && IsOut(st, node)
    case Scribble(node, _) => IsOut(st, node)
    case Advance(a) =>
      && a in st.agents && st.agents[a] != Idle
      && (st.agents[a].Looking? ==> st.agents[a].seen.Ptr? && st.agents[a].seen.addr in st.next)
      && (st.agents[a].Popping? ==> st.agents[a].seen.Ptr?)
  }

  function Next(st: State, e: Event): State
    requires Enabled(st, e)
  {
    match e
    case NewNode(a, node) => st.(next := st.next[node := Null], place := st.place[node := Out])
    case StartPop(a) =>
      st.(agents := st.agents[a := Looking(st.top, if st.stack == [] then Item(0, 0) else st.stack[0])])
    case StartPush(a, node) => st.(agents := st.agents[a := Drawing(node)], place := st.place[node := With(a)])
    case Scribble(node, w) => st.(next := st.next[node := w])
    case Advance(a) => Step(st, a)
  }

  function Step(st: State, a: Agent): State
    requires Enabled(st, Advance(a))
  {
    match st.agents[a]
    case Drawing(node) => st.(count := st.count + 1, agents := st.agents[a := Linking(Item(node, st.count + 1))])
    case Linking(item) => st.(next := st.next[item.addr := st.top], agents := st.agents[a := Pushing(item, st.top)])
    case Pushing(item, seen) =>
      if st.top != seen then st.(agents := st.agents[a := Linking(item)])
      else st.(top := Pack(item), agents := st.agents[a := Idle],
               stack := [item] + st.stack, last := st.last[item.addr := item.serial],
               place := st.place[item.addr := OnStack])
    case Looking(seen, item) => st.(agents := st.agents[a := Popping(seen, item, st.next[seen.addr])])
    case Popping(seen, _, next) =>
      if st.top != seen then st.(agents := st.agents[a := Idle])
      else st.(top := next, agents := st.agents[a := Idle],
               stack := if st.stack == [] then [] else st.stack[1..], place := st.place[seen.addr := Out])
  }

  // ---- the invariant ------------------------------------------------------------------

  // The word that leads to the k-th item.
  function WordAt(stack: seq<Item>, k: nat): Word {
    if k < |stack| then Pack(stack[k]) else Null
  }

  // Following _next from the top meets exactly the items of the stack.
  ghost predicate ChainOk(top: Word, next: map<Addr, Word>, stack: seq<Item>) {
    && top == WordAt(stack, 0)
    && forall k :: 0 <= k < |stack| ==> stack[k].addr in next && next[stack[k].addr] == WordAt(stack, k + 1)
  }

  ghost predicate PlacesOk(st: State) {
    && st.place.Keys == st.next.Keys
    && (forall k :: 0 <= k < |st.stack| ==> st.stack[k].addr in st.place && st.place[st.stack[k].addr] == OnStack)
    && (forall j, k :: 0 <= j < k < |st.stack| ==> st.stack[j].addr != st.stack[k].addr)
    && (forall n :: n in st.place && st.place[n].With? ==> Carries(st, st.place[n].a, n))
    && forall n :: n in st.place && st.place[n].OnStack? ==> n in st.last
  }

  // The activity is pushing the node.
  predicate Carries(st: State, a: Agent, n: Addr) {
    a in st.agents
    && match st.agents[a]
       case Drawing(node) => node == n
       case Linking(item) => item.addr == n
       case Pushing(item, _) => item.addr == n
       case _ => false
  }

  predicate NotAfter(last: map<Addr, nat>, item: Item) {
    item.addr in last && item.serial <= last[item.addr]
  }

  ghost predicate SerialsOk(st: State) {
    && (forall k :: 0 <= k < |st.stack| ==>
          st.stack[k].addr in st.last && st.last[st.stack[k].addr] == st.stack[k].serial)
    && forall n :: n in st.last ==> st.last[n] <= st.count
  }

  // The next word of an item, if it is still on the stack.
  ghost predicate FollowsIn(stack: seq<Item>, item: Item, next: Word) {
    forall k :: 0 <= k < |stack| && stack[k] == item ==> next == WordAt(stack, k + 1)
  }

  ghost predicate AgentOk(st: State, a: Agent, pc: Pc) {
    match pc
    case Idle => true
    case Drawing(node) => node in st.place && st.place[node] == With(a)
    case Linking(item) => PendingOk(st, a, item)
    case Pushing(item, seen) => PendingOk(st, a, item) && st.next[item.addr] == seen
    case Looking(seen, item) => seen == Pack(item) && NotAfter(st.last, item) && item.addr in st.next
    case Popping(seen, item, next) =>
      seen == Pack(item) && NotAfter(st.last, item) && item.addr in st.next && FollowsIn(st.stack, item, next)
  }

  // A number drawn for a node is above that of its last push.
  ghost predicate PendingOk(st: State, a: Agent, item: Item) {
    && item.addr in st.place && st.place[item.addr] == With(a) && item.addr in st.next
    && item.serial <= st.count && (item.addr in st.last ==> st.last[item.addr] < item.serial)
  }

  ghost predicate Inv(st: State) {
    && ChainOk(st.top, st.next, st.stack) && PlacesOk(st) && SerialsOk(st)
    && forall a :: a in st.agents ==> AgentOk(st, a, st.agents[a])
  }

  ghost predicate Init(st: State) {
    && st.top == Null && st.next == map[] && st.stack == [] && st.last == map[] && st.place == map[]
    && forall a :: a in st.agents ==> st.agents[a] == Idle
  }

  // The pop's exchange succeeds.
  predicate Takes(st: State, e: Event) {
    e.Advance? && e.a in st.agents && st.agents[e.a].Popping? && st.top == st.agents[e.a].seen
  }

  // Fewer than 2^17 pushes have drawn their number since the one the pop saw.
  predicate InTime(st: State, e: Event) {
    Takes(st, e) ==> st.count < st.agents[e.a].item.serial + 0x2_0000
  }

  // The exchange succeeds on another push than the pop has seen only if the
  // counter went round since the push it saw.
  lemma StaleTakeMeansWrap(st: State, e: Event)
    requires Inv(st) && Enabled(st, e) && Takes(st, e)
    ensures st.stack != [] && st.stack[0].addr == st.agents[e.a].item.addr
    ensures st.stack[0] != st.agents[e.a].item ==> st.count >= st.agents[e.a].item.serial + 0x2_0000
  {
    var item := st.agents[e.a].item;
    assert AgentOk(st, e.a, st.agents[e.a]);
    SameTag(item.serial, st.stack[0].serial);
  }

  lemma SameTag(a: nat, b: nat)
    requires a <= b && a % 0x2_0000 == b % 0x2_0000
    ensures a == b || b >= a + 0x2_0000
  {
  }

  // ---- every step keeps it ---------------------------------------------------------------

  lemma EasyStep(st: State, e: Event)
    requires Inv(st) && Enabled(st, e) && (e.NewNode? || e.StartPop? || e.StartPush?)
    ensures Inv(Next(st, e))
  {
    match e
    case NewNode(a, node) => NewNodeStep(st, a, node);
    case StartPop(a) => StartPopStep(st, a);
    case StartPush(a, node) => StartPushStep(st, a, node);
  }

  lemma NewNodeStep(st: State, a: Agent, node: Addr)
    requires Inv(st) && Enabled(st, NewNode(a, node))
    ensures Inv(Next(st, NewNode(a, node)))
  {
  }

  lemma StartPopStep(st: State, a: Agent)
    requires Inv(st) && Enabled(st, StartPop(a))
    ensures Inv(Next(st, StartPop(a)))
  {
  }

  lemma StartPushStep(st: State, a: Agent, node: Addr)
    requires Inv(st) && Enabled(st, StartPush(a, node))
    ensures Inv(Next(st, StartPush(a, node)))
  {
  }

  lemma ScribbleStep(st: State, node: Addr, w: Word)
    requires Inv(st) && Enabled(st, Scribble(node, w))
    ensures Inv(Next(st, Scribble(node, w)))
  {
  }

  lemma DrawStep(st: State, a: Agent)
    requires Inv(st) && Enabled(st, Advance(a)) && st.agents[a].Drawing?
    ensures Inv(Step(st, a))
  {
  }

  lemma LinkStep(st: State, a: Agent)
    requires Inv(st) && Enabled(st, Advance(a)) && st.agents[a].Linking?
    ensures Inv(Step(st, a))
  {
  }

  // An activity that keeps its node may change its mind about everything else.
  lemma OwnChange(st: State, a: Agent, pc: Pc)
    requires Inv(st) && a in st.agents && AgentOk(st, a, pc)
    requires forall n :: Carries(st, a, n) ==> Carries(st.(agents := st.agents[a := pc]), a, n)
    ensures Inv(st.(agents := st.agents[a := pc]))
  {
  }

  lemma LookStep(st: State, a: Agent)
    requires Inv(st) && Enabled(st, Advance(a)) && st.agents[a].Looking?
    ensures Inv(Step(st, a))
  {
    var item := st.agents[a].item;
    assert AgentOk(st, a, st.agents[a]);
    OwnChange(st, a, Popping(st.agents[a].seen, item, st.next[item.addr]));
  }

  // What the others know survives a push.
  lemma OthersAfterPush(st: State, a: Agent, b: Agent)
    requires Inv(st) && Enabled(st, Advance(a)) && st.agents[a].Pushing? && st.top == st.agents[a].seen
    requires b in st.agents && b != a
    ensures AgentOk(Step(st, a), b, st.agents[b])
  {
  }

  lemma PushStep(st: State, a: Agent)
    requires Inv(st) && Enabled(st, Advance(a)) && st.agents[a].Pushing?
    ensures Inv(Step(st, a))
  {
    assert AgentOk(st, a, st.agents[a]);
    if st.top == st.agents[a].seen {
      forall b | b in st.agents && b != a
        ensures AgentOk(Step(st, a), b, st.agents[b])
      {
        OthersAfterPush(st, a, b);
      }
      PushedStack(st, a);
    } else {
      OwnChange(st, a, Linking(st.agents[a].item));
    }
  }

  lemma ChainPush(top: Word, next: map<Addr, Word>, stack: seq<Item>, item: Item)
    requires ChainOk(top, next, stack) && item.addr in next && next[item.addr] == top
    ensures ChainOk(Pack(item), next, [item] + stack)
  {
  }

  lemma PushedStack(st: State, a: Agent)
    requires Inv(st) && Enabled(st, Advance(a)) && st.agents[a].Pushing? && st.top == st.agents[a].seen
    ensures ChainOk(Step(st, a).top, Step(st, a).next, Step(st, a).stack)
    ensures PlacesOk(Step(st, a)) && SerialsOk(Step(st, a))
  {
    assert AgentOk(st, a, st.agents[a]);
    ChainPush(st.top, st.next, st.stack, st.agents[a].item);
    PushedPlaces(st, a);
  }

  lemma PushedPlaces(st: State, a: Agent)
    requires Inv(st) && Enabled(st, Advance(a)) && st.agents[a].Pushing? && st.top == st.agents[a].seen
    ensures PlacesOk(Step(st, a))
  {
    assert AgentOk(st, a, st.agents[a]);
  }

  lemma OthersAfterPop(st: State, a: Agent, b: Agent)
    requires Inv(st) && Enabled(st, Advance(a)) && Takes(st, Advance(a)) && InTime(st, Advance(a))
    requires b in st.agents && b != a
    ensures AgentOk(Step(st, a), b, st.agents[b])
  {
  }

  lemma PopStep(st: State, a: Agent)
    requires Inv(st) && Enabled(st, Advance(a)) && st.agents[a].Popping? && InTime(st, Advance(a))
    ensures Inv(Step(st, a))
  {
    assert AgentOk(st, a, st.agents[a]);
    if st.top == st.agents[a].seen {
      forall b | b in st.agents && b != a
        ensures AgentOk(Step(st, a), b, st.agents[b])
      {
        OthersAfterPop(st, a, b);
      }
      PoppedStack(st, a);
    } else {
      OwnChange(st, a, Idle);
    }
  }

  lemma PoppedStack(st: State, a: Agent)
    requires Inv(st) && Enabled(st, Advance(a)) && Takes(st, Advance(a)) && InTime(st, Advance(a))
    ensures ChainOk(Step(st, a).top, Step(st, a).next, Step(st, a).stack)
    ensures PlacesOk(Step(st, a)) && SerialsOk(Step(st, a))
  {
    var st' := Step(st, a);
    StaleTakeMeansWrap(st, Advance(a));
    assert AgentOk(st, a, st.agents[a]);
    assert st.stack[0] == st.agents[a].item;
    forall k | 0 <= k < |st'.stack|
      ensures st'.stack[k] == st.stack[k + 1]
    {
    }
  }

  lemma StepInv(st: State, e: Event)
    requires Inv(st) && Enabled(st, e) && InTime(st, e)
    ensures Inv(Next(st, e))
  {
    match e
    case Scribble(node, w) => ScribbleStep(st, node, w);
    case Advance(a) =>
      if st.agents[a].Drawing? {
        DrawStep(st, a);
      } else if st.agents[a].Linking? {
        LinkStep(st, a);
      } else if st.agents[a].Pushing? {
        PushStep(st, a);
      } else if st.agents[a].Looking? {
        LookStep(st, a);
      } else {
        PopStep(st, a);
      }
    case _ => EasyStep(st, e);
  }

  // ---- whole runs ---------------------------------------------------------------------------

  ghost predicate Possible(st: State, events: seq<Event>)
    decreases |events|
  {
    events == [] || (Enabled(st, events[0]) && Possible(Next(st, events[0]), events[1..]))
  }

  function Run(st: State, events: seq<Event>): State
    requires Possible(st, events)
    decreases |events|
  {
    if events == [] then st else Run(Next(st, events[0]), events[1..])
  }

  // Every pop that succeeds does so before the counter has come round.
  ghost predicate Timely(st: State, events: seq<Event>)
    requires Possible(st, events)
    decreases |events|
  {
    events == [] || (InTime(st, events[0]) && Timely(Next(st, events[0]), events[1..]))
  }

  lemma {:induction false} TimelyInv(st: State, events: seq<Event>)
    requires Inv(st) && Possible(st, events) && Timely(st, events)
    ensures Inv(Run(st, events))
    decreases |events|
  {
    if events != [] {
      StepInv(st, events[0]);
      TimelyInv(Next(st, events[0]), events[1..]);
    }
  }

  // ---- what the memory holds -----------------------------------------------------------------

  // Following _next from a word, one meets these nodes and then the end.
  ghost predicate Meets(w: Word, next: map<Addr, Word>, nodes: seq<Addr>)
    decreases |nodes|
  {
    if nodes == [] then w == Null
    else w.Ptr? && w.addr == nodes[0] && w.addr in next && Meets(next[w.addr], next, nodes[1..])
  }

  function Nodes(stack: seq<Item>): seq<Addr> {
    if stack == [] then [] else [stack[0].addr] + Nodes(stack[1..])
  }

  // From the top one meets the nodes pushed and not yet popped, the latest
  // first.
  ghost predicate Holds(st: State) {
    Meets(st.top, st.next, Nodes(st.stack))
  }

  predicate SameNode(w: Word, v: Word) {
    if w.Null? then v.Null? else v.Ptr? && v.addr == w.addr
  }

  // A pop that succeeds still finds behind its node the node it read there.
  predicate Fits(st: State, e: Event) {
    Takes(st, e) ==>
      && st.agents[e.a].seen.Ptr? && st.agents[e.a].seen.addr in st.next
      && SameNode(st.agents[e.a].next, st.next[st.agents[e.a].seen.addr])
  }

  // What is needed of the places of the nodes, without the numbers.
  ghost predicate Sorted(st: State) {
    && st.place.Keys == st.next.Keys
    && (forall n :: n in Nodes(st.stack) ==> n in st.place && st.place[n] == OnStack)
    && Once(Nodes(st.stack))
    && (forall n :: n in st.place && st.place[n].With? ==> Carries(st, st.place[n].a, n))
    && forall a :: a in st.agents ==> Owning(st, a, st.agents[a])
  }

  ghost predicate Once(nodes: seq<Addr>) {
    forall n :: multiset(nodes)[n] <= 1
  }

  lemma OnceMore(node: Addr, nodes: seq<Addr>)
    ensures Once([node] + nodes) <==> Once(nodes) && node !in nodes
  {
    assert multiset([node] + nodes) == multiset{node} + multiset(nodes);
    if Once([node] + nodes) {
      assert multiset([node] + nodes)[node] == 1 + multiset(nodes)[node];
      forall n
        ensures multiset(nodes)[n] <= 1
      {
        assert multiset(nodes)[n] <= multiset([node] + nodes)[n];
      }
    }
  }

  // A push has its node to itself, and has linked it to the word it saw.
  predicate Owning(st: State, a: Agent, pc: Pc) {
    match pc
    case Drawing(node) => Owns(st, a, node)
    case Linking(item) => Owns(st, a, item.addr)
    case Pushing(item, seen) => Owns(st, a, item.addr) && st.next[item.addr] == seen
    case _ => true
  }

  predicate Owns(st: State, a: Agent, node: Addr) {
    node in st.place && st.place[node] == With(a) && node in st.next
  }

  lemma InitSorted(st: State)
    requires Init(st)
    ensures Sorted(st) && Holds(st)
  {
  }

  lemma {:induction false} MeetsElsewhere(w: Word, next: map<Addr, Word>, next': map<Addr, Word>, nodes: seq<Addr>)
    requires Meets(w, next, nodes) && forall n :: n in nodes && n in next ==> n in next' && next'[n] == next[n]
    ensures Meets(w, next', nodes)
    decreases |nodes|
  {
    if nodes != [] {
      assert nodes[0] in nodes;
      MeetsElsewhere(next[w.addr], next, next', nodes[1..]);
    }
  }

  lemma {:induction false} MeetsOnce(w: Word, next: map<Addr, Word>, a: seq<Addr>, b: seq<Addr>)
    requires Meets(w, next, a) && Meets(w, next, b)
    ensures a == b
    decreases |a|
  {
    if a != [] {
      MeetsOnce(next[w.addr], next, a[1..], b[1..]);
      assert a == [a[0]] + a[1..] && b == [b[0]] + b[1..];
    }
  }

  // Only the link of a node that is not on the stack changes.
  lemma LinkElsewhere(st: State, node: Addr, w: Word)
    requires Sorted(st) && Holds(st) && (node in st.place ==> st.place[node] != OnStack)
    ensures Meets(st.top, st.next[node := w], Nodes(st.stack))
  {
    MeetsElsewhere(st.top, st.next, st.next[node := w], Nodes(st.stack));
  }

  // The steps that neither push nor pop.
  lemma QuietStep(st: State, e: Event)
    requires Sorted(st) && Holds(st) && Enabled(st, e) && !e.Advance?
    ensures Sorted(Next(st, e)) && Holds(Next(st, e))
  {
    match e
    case NewNode(a, node) =>
      LinkElsewhere(st, node, Null);
      NewNodeSorted(st, a, node);
    case Scribble(node, w) =>
      LinkElsewhere(st, node, w);
      ScribbleSorted(st, node, w);
    case StartPush(a, node) => StartPushSorted(st, a, node);
    case StartPop(a) => StartPopSorted(st, a);
  }

  lemma NewNodeSorted(st: State, a: Agent, node: Addr)
    requires Sorted(st) && Enabled(st, NewNode(a, node))
    ensures Sorted(Next(st, NewNode(a, node)))
  {
  }

  lemma ScribbleSorted(st: State, node: Addr, w: Word)
    requires Sorted(st) && Enabled(st, Scribble(node, w))
    ensures Sorted(Next(st, Scribble(node, w)))
  {
  }

  lemma StartPushSorted(st: State, a: Agent, node: Addr)
    requires Sorted(st) && Enabled(st, StartPush(a, node))
    ensures Sorted(Next(st, StartPush(a, node)))
  {
  }

  lemma StartPopSorted(st: State, a: Agent)
    requires Sorted(st) && Enabled(st, StartPop(a))
    ensures Sorted(Next(st, StartPop(a)))
  {
  }

  lemma PreparingStep(st: State, a: Agent)
    requires Sorted(st) && Holds(st) && Enabled(st, Advance(a)) && (st.agents[a].Drawing? || st.agents[a].Linking?)
    ensures Sorted(Step(st, a)) && Holds(Step(st, a))
  {
    assert Owning(st, a, st.agents[a]);
    if st.agents[a].Linking? {
      LinkElsewhere(st, st.agents[a].item.addr, st.top);
    }
  }

  lemma PushingStep(st: State, a: Agent)
    requires Sorted(st) && Holds(st) && Enabled(st, Advance(a)) && st.agents[a].Pushing?
    ensures Sorted(Step(st, a)) && Holds(Step(st, a))
  {
    var node := st.agents[a].item.addr;
    assert Owning(st, a, st.agents[a]);
    if st.top == st.agents[a].seen {
      assert Nodes(Step(st, a).stack) == [node] + Nodes(st.stack);
      MeetsPushed(st.top, st.next, node, st.agents[a].item.serial % TAGS, Nodes(st.stack));
      PushedSorted(st, a);
    }
  }

  lemma MeetsPushed(top: Word, next: map<Addr, Word>, node: Addr, tag: nat, nodes: seq<Addr>)
    requires Meets(top, next, nodes) && node in next && next[node] == top
    ensures Meets(Ptr(node, tag), next, [node] + nodes)
  {
  }

  lemma PushedSorted(st: State, a: Agent)
    requires Sorted(st) && Enabled(st, Advance(a)) && st.agents[a].Pushing? && st.top == st.agents[a].seen
    requires Nodes(Step(st, a).stack) == [st.agents[a].item.addr] + Nodes(st.stack)
    ensures Sorted(Step(st, a))
  {
    var node := st.agents[a].item.addr;
    assert Owning(st, a, st.agents[a]);
    OnceMore(node, Nodes(st.stack));
  }

  // A successful pop leaves the memory right exactly if it fits.
  lemma PoppingStep(st: State, a: Agent)
    requires Sorted(st) && Holds(st) && Enabled(st, Advance(a)) && st.agents[a].Popping?
    ensures Holds(Step(st, a)) <==> Fits(st, Advance(a))
    ensures Fits(st, Advance(a)) ==> Sorted(Step(st, a))
  {
    if st.top == st.agents[a].seen {
      var rest := Nodes(st.stack)[1..];
      assert st.stack != [] && Nodes(st.stack) == [st.top.addr] + Nodes(st.stack[1..]);
      assert rest == Nodes(st.stack[1..]);
      MeetsByNode(st.agents[a].next, st.next[st.top.addr], st.next, rest);
      PoppedSorted(st, a);
    }
  }

  // Of two words, one of which leads to the nodes, the other does so exactly if
  // it has the same node.
  lemma MeetsByNode(w: Word, v: Word, next: map<Addr, Word>, nodes: seq<Addr>)
    requires Meets(v, next, nodes)
    ensures Meets(w, next, nodes) <==> SameNode(w, v)
  {
  }

  lemma PoppedSorted(st: State, a: Agent)
    requires Sorted(st) && Enabled(st, Advance(a)) && st.agents[a].Popping? && st.top == st.agents[a].seen
    requires st.stack != [] && Nodes(st.stack) == [st.top.addr] + Nodes(st.stack[1..])
    ensures Sorted(Step(st, a))
  {
    OnceMore(st.top.addr, Nodes(st.stack[1..]));
  }

  // A step leaves the memory right exactly if it is not a pop that does not
  // fit.
  lemma StepHolds(st: State, e: Event)
    requires Sorted(st) && Holds(st) && Enabled(st, e)
    ensures Holds(Next(st, e)) <==> Fits(st, e)
    ensures Fits(st, e) ==> Sorted(Next(st, e))
  {
    if !e.Advance? {
      QuietStep(st, e);
    } else if st.agents[e.a].Drawing? || st.agents[e.a].Linking? {
      PreparingStep(st, e.a);
    } else if st.agents[e.a].Pushing? {
      PushingStep(st, e.a);
    } else if st.agents[e.a].Popping? {
      PoppingStep(st, e.a);
    }
  }

  ghost predicate AlwaysHolds(st: State, events: seq<Event>)
    requires Possible(st, events)
    decreases |events|
  {
    Holds(st) && (events != [] ==> AlwaysHolds(Next(st, events[0]), events[1..]))
  }

  ghost predicate AlwaysFits(st: State, events: seq<Event>)
    requires Possible(st, events)
    decreases |events|
  {
    events != [] ==> Fits(st, events[0]) && AlwaysFits(Next(st, events[0]), events[1..])
  }

  // Whatever the threads do: the memory holds the stack at every point of a run
  // if and only if every successful pop still finds behind its node the node it
  // read there.
  lemma HoldsExactlyIfFits(start: State, events: seq<Event>)
    requires Init(start) && Possible(start, events)
    ensures AlwaysHolds(start, events) <==> AlwaysFits(start, events)
  {
    InitSorted(start);
    HoldsFrom(start, events);
  }

  lemma {:induction false} HoldsFrom(st: State, events: seq<Event>)
    requires Sorted(st) && Holds(st) && Possible(st, events)
    ensures AlwaysHolds(st, events) <==> AlwaysFits(st, events)
    ensures AlwaysFits(st, events) ==> Sorted(Run(st, events)) && Holds(Run(st, events))
    decreases |events|
  {
    if events != [] {
      StepHolds(st, events[0]);
      if Fits(st, events[0]) {
        HoldsFrom(Next(st, events[0]), events[1..]);
      }
    }
  }

  // That is so when every one of them comes before the counter has come round.
  lemma TimelyRunsFit(start: State, events: seq<Event>)
    requires Init(start) && Possible(start, events) && Timely(start, events)
    ensures AlwaysFits(start, events)
  {
    TimelyFrom(start, events);
  }

  lemma {:induction false} TimelyFrom(st: State, events: seq<Event>)
    requires Inv(st) && Possible(st, events) && Timely(st, events)
    ensures AlwaysFits(st, events)
    decreases |events|
  {
    if events != [] {
      InTimeFits(st, events[0]);
      StepInv(st, events[0]);
      TimelyFrom(Next(st, events[0]), events[1..]);
    }
  }

  lemma InTimeFits(st: State, e: Event)
    requires Inv(st) && Enabled(st, e) && InTime(st, e)
    ensures Fits(st, e)
  {
    if Takes(st, e) {
      StaleTakeMeansWrap(st, e);
      assert AgentOk(st, e.a, st.agents[e.a]);
      assert st.next[st.stack[0].addr] == WordAt(st.stack, 1);
    }
  }

  // The states some interleaving leads to in which every successful pop fits.
  ghost predicate Reachable(st: State) {
    exists start, events :: Arrives(start, events, st)
  }

  ghost predicate Arrives(start: State, events: seq<Event>, st: State) {
    Init(start) && Possible(start, events) && AlwaysFits(start, events) && Run(start, events) == st
  }

  lemma ReachableHolds(st: State)
    requires Reachable(st)
    ensures Sorted(st) && Holds(st)
  {
    var start, events :| Arrives(start, events, st);
    InitSorted(start);
    HoldsFrom(start, events);
  }

  // Then, whatever the threads did, from the top one meets the nodes pushed and
  // not yet popped, the latest first, and then the end; and nothing else.
  lemma MemoryHoldsTheStack(st: State, nodes: seq<Addr>)
    requires Reachable(st)
    ensures Meets(st.top, st.next, nodes) <==> nodes == Nodes(st.stack)
  {
    ReachableHolds(st);
    if Meets(st.top, st.next, nodes) {
      MeetsOnce(st.top, st.next, nodes, Nodes(st.stack));
    }
  }

  // Whatever nodes one meets in memory: a push that succeeds puts its node in
  // front of them; a pop that succeeds gives its caller the first of them, and
  // one meets the others.
  lemma LastInFirstOut(st: State, a: Agent, nodes: seq<Addr>)
    requires Reachable(st) && Enabled(st, Advance(a)) && Fits(st, Advance(a)) && st.top == Seen(st.agents[a])
    requires Meets(st.top, st.next, nodes)
    ensures st.agents[a].Pushing? ==> Meets(Step(st, a).top, Step(st, a).next, [st.agents[a].item.addr] + nodes)
    ensures st.agents[a].Popping? ==> nodes != [] && nodes[0] == st.agents[a].seen.addr
                                      && Meets(Step(st, a).top, Step(st, a).next, nodes[1..])
                                      && IsOut(Step(st, a), nodes[0])
  {
    ReachableHolds(st);
    assert Owning(st, a, st.agents[a]);
    if st.agents[a].Pushing? {
      MeetsPushed(st.top, st.next, st.agents[a].item.addr, st.agents[a].item.serial % TAGS, nodes);
    } else if st.agents[a].Popping? {
      MeetsByNode(st.agents[a].next, st.next[st.top.addr], st.next, nodes[1..]);
    }
  }

  function Seen(pc: Pc): Word {
    if pc.Pushing? || pc.Popping? then pc.seen else Null
  }

  // Nobody else has a node that somebody has: it is out, or on the stack once,
  // or being pushed by one activity.
  lemma NodeInOnePlace(st: State, n: Addr, a: Agent, b: Agent)
    requires Reachable(st)
    ensures IsOut(st, n) ==> n !in Nodes(st.stack) && !Carries(st, a, n)
    ensures Carries(st, a, n) ==> n !in Nodes(st.stack) && (Carries(st, b, n) ==> a == b)
    ensures multiset(Nodes(st.stack))[n] <= 1
  {
    ReachableHolds(st);
    assert a in st.agents ==> Owning(st, a, st.agents[a]);
    assert b in st.agents ==> Owning(st, b, st.agents[b]);
  }

  // ---- once round ---------------------------------------------------------------------------------

  // The events are possible in turn, every pop comes in time, and they end in
  // that state.
  ghost predicate Leads(from: State, events: seq<Event>, to: State) {
    Possible(from, events) && Timely(from, events) && Run(from, events) == to
  }

  lemma {:induction false} LeadsOn(a: State, first: seq<Event>, b: State, second: seq<Event>, c: State)
    requires Leads(a, first, b) && Leads(b, second, c)
    ensures Leads(a, first + second, c)
    decreases |first|
  {
    if first == [] {
      assert first + second == second;
    } else {
      LeadsOn(Next(a, first[0]), first[1..], b, second, c);
      assert (first + second)[1..] == first[1..] + second;
    }
  }

  // What thread 0 remembers: it saw node 1, pushed with number 2, on top of
  // node 2.
  const SLOW := Popping(Ptr(1, 2), Item(1, 2), Ptr(2, 1))

  // Node 2 and then node 1 have been pushed by thread 1.
  function Pushed(first: Pc): State {
    State(Ptr(1, 2), map[1 := Ptr(2, 1), 2 := Null], 2, map[0 := first, 1 := Idle],
          [Item(1, 2), Item(2, 1)], map[1 := 2, 2 := 1], map[1 := OnStack, 2 := OnStack])
  }

  // Thread 1 has popped both, and pushed node 1 and popped it again until the
  // counter reached `count`.
  function Emptied(count: nat): State {
    State(Null, map[1 := Null, 2 := Null], count, map[0 := SLOW, 1 := Idle],
          [], map[1 := count, 2 := 1], map[1 := Out, 2 := Out])
  }

  const NOTHING := State(Null, map[], 0, map[0 := Idle, 1 := Idle], [], map[], map[])

  function PushEvents(a: Agent, node: Addr): seq<Event> {
    [StartPush(a, node), Advance(a), Advance(a), Advance(a)]
  }

  function PopEvents(a: Agent): seq<Event> {
    [StartPop(a), Advance(a), Advance(a)]
  }

  lemma OneStep(st: State, e: Event, to: State)
    requires Enabled(st, e) && InTime(st, e) && Next(st, e) == to
    ensures Leads(st, [e], to)
  {
    assert [e][1..] == [];
  }

  lemma FourSteps(s0: State, e0: Event, s1: State, e1: Event, s2: State, e2: Event, s3: State, e3: Event, s4: State)
    requires Leads(s0, [e0], s1) && Leads(s1, [e1], s2) && Leads(s2, [e2], s3) && Leads(s3, [e3], s4)
    ensures Leads(s0, [e0, e1, e2, e3], s4)
  {
    LeadsOn(s0, [e0], s1, [e1], s2);
    LeadsOn(s0, [e0] + [e1], s2, [e2], s3);
    LeadsOn(s0, [e0] + [e1] + [e2], s3, [e3], s4);
    assert [e0] + [e1] + [e2] + [e3] == [e0, e1, e2, e3];
  }

  // A push that nobody disturbs draws the next number, links its node to what
  // was on top and puts it there, with the low 17 bits of the number.
  lemma PushAlone(st: State, a: Agent, n: Addr, to: State)
    requires IdleAgent(st, a) && IsOut(st, n)
    requires to == State(Ptr(n, (st.count + 1) % 0x2_0000), st.next[n := st.top], st.count + 1, st.agents,
                         [Item(n, st.count + 1)] + st.stack, st.last[n := st.count + 1], st.place[n := OnStack])
    ensures Leads(st, PushEvents(a, n), to)
  {
    var item := Item(n, st.count + 1);
    var s1 := st.(agents := st.agents[a := Drawing(n)], place := st.place[n := With(a)]);
    var s2 := s1.(count := st.count + 1, agents := st.agents[a := Linking(item)]);
    var s3 := s2.(next := st.next[n := st.top], agents := st.agents[a := Pushing(item, st.top)]);
    assert s3.agents[a := Idle] == st.agents && s3.place[n := OnStack] == st.place[n := OnStack];
    OneStep(st, StartPush(a, n), s1);
    OneStep(s1, Advance(a), s2);
    OneStep(s2, Advance(a), s3);
    OneStep(s3, Advance(a), to);
    FourSteps(st, StartPush(a, n), s1, Advance(a), s2, Advance(a), s3, Advance(a), to);
  }

  // A pop that nobody disturbs takes the node on top, and what was behind it
  // is on top.
  lemma PopAlone(st: State, a: Agent, to: State)
    requires IdleAgent(st, a) && st.stack != [] && st.top == Pack(st.stack[0]) && st.stack[0].addr in st.next
    requires st.count < st.stack[0].serial + 0x2_0000
    requires to == State(st.next[st.stack[0].addr], st.next, st.count, st.agents, st.stack[1..], st.last,
                         st.place[st.stack[0].addr := Out])
    ensures Leads(st, PopEvents(a), to)
  {
    var item := st.stack[0];
    var s1 := st.(agents := st.agents[a := Looking(st.top, item)]);
    var s2 := st.(agents := st.agents[a := Popping(st.top, item, st.next[item.addr])]);
    assert s2.agents[a := Idle] == st.agents;
    OneStep(st, StartPop(a), s1);
    OneStep(s1, Advance(a), s2);
    OneStep(s2, Advance(a), to);
    LeadsOn(st, [StartPop(a)], s1, [Advance(a)], s2);
    LeadsOn(st, [StartPop(a)] + [Advance(a)], s2, [Advance(a)], to);
    assert [StartPop(a)] + [Advance(a)] + [Advance(a)] == PopEvents(a);
  }

  // Steps left if nobody disturbs: an exchange that will fail costs a push two
  // more.
  function Remaining(st: State, a: Agent): nat {
    if a !in st.agents then 0
    else match st.agents[a]
         case Idle => 0
         case Drawing(_) => 3
         case Linking(_) => 2
         case Pushing(_, seen) => if st.top == seen then 1 else 3
         case Looking(_, _) => 2
         case Popping(_, _, _) => 1
  }

  // Every step brings its own push or pop nearer to its end and leaves the
  // others where they are; so, left alone, it takes three at most.
  lemma StepsFinish(st: State, a: Agent)
    requires Enabled(st, Advance(a))
    ensures Remaining(Step(st, a), a) < Remaining(st, a) <= 3
    ensures Step(st, a).agents.Keys == st.agents.Keys
    ensures forall b :: b in st.agents && b != a ==> Step(st, a).agents[b] == st.agents[b]
  {
  }

  // An exchange that finds another word than it saw changes nothing; the push
  // goes on with its node and number, the pop gives up.
  lemma FailedExchange(st: State, a: Agent)
    requires Enabled(st, Advance(a)) && (st.agents[a].Pushing? || st.agents[a].Popping?)
    requires st.top != st.agents[a].seen
    ensures Step(st, a) == st.(agents := st.agents[a := if st.agents[a].Pushing? then Linking(st.agents[a].item)
                                                        else Idle])
  {
  }

  // A thread with nothing under way can begin a push of any node somebody has,
  // and a pop if there is a node on the stack; a new node is made only if there
  // is none. Whoever has a node may write into it.
  lemma Begins(st: State, a: Agent, node: Addr)
    requires Reachable(st) && IdleAgent(st, a)
    ensures IsOut(st, node) <==> Enabled(st, StartPush(a, node))
    ensures Enabled(st, StartPop(a)) <==> Nodes(st.stack) != []
    ensures Enabled(st, NewNode(a, node)) <==> Nodes(st.stack) == [] && node !in st.next
    ensures forall w :: Enabled(st, Scribble(node, w)) <==> IsOut(st, node)
  {
    ReachableHolds(st);
  }

  const OPENING := [NewNode(1, 2)] + [NewNode(1, 1)] + PushEvents(1, 2) + PushEvents(1, 1)
  const MIDDLE := [StartPop(0)] + [Advance(0)] + PopEvents(1) + PopEvents(1) + [Scribble(1, Null)]

  lemma FourParts(s0: State, e0: seq<Event>, s1: State, e1: seq<Event>, s2: State, e2: seq<Event>,
                  s3: State, e3: seq<Event>, s4: State)
    requires Leads(s0, e0, s1) && Leads(s1, e1, s2) && Leads(s2, e2, s3) && Leads(s3, e3, s4)
    ensures Leads(s0, e0 + e1 + e2 + e3, s4)
  {
    LeadsOn(s0, e0, s1, e1, s2);
    LeadsOn(s0, e0 + e1, s2, e2, s3);
    LeadsOn(s0, e0 + e1 + e2, s3, e3, s4);
  }

  lemma OpeningRuns()
    ensures Leads(NOTHING, OPENING, Pushed(Idle))
  {
    var agents: map<Agent, Pc> := map[0 := Idle, 1 := Idle];
    var s1 := State(Null, map[2 := Null], 0, agents, [], map[], map[2 := Out]);
    var s2 := State(Null, map[1 := Null, 2 := Null], 0, agents, [], map[], map[1 := Out, 2 := Out]);
    var s3 := State(Ptr(2, 1), map[1 := Null, 2 := Null], 1, agents, [Item(2, 1)], map[2 := 1],
                    map[1 := Out, 2 := OnStack]);
    OneStep(NOTHING, NewNode(1, 2), s1);
    OneStep(s1, NewNode(1, 1), s2);
    PushAlone(s2, 1, 2, s3);
    PushAlone(s3, 1, 1, Pushed(Idle));
    FourParts(NOTHING, [NewNode(1, 2)], s1, [NewNode(1, 1)], s2, PushEvents(1, 2), s3, PushEvents(1, 1), Pushed(Idle));
  }

  lemma MiddleRuns()
    ensures Leads(Pushed(Idle), MIDDLE, Emptied(2))
  {
    var s1 := Pushed(Looking(Ptr(1, 2), Item(1, 2)));
    var s3 := State(Ptr(2, 1), map[1 := Ptr(2, 1), 2 := Null], 2, map[0 := SLOW, 1 := Idle],
                    [Item(2, 1)], map[1 := 2, 2 := 1], map[1 := Out, 2 := OnStack]);
    var s4 := State(Null, map[1 := Ptr(2, 1), 2 := Null], 2, map[0 := SLOW, 1 := Idle],
                    [], map[1 := 2, 2 := 1], map[1 := Out, 2 := Out]);
    OneStep(Pushed(Idle), StartPop(0), s1);
    OneStep(s1, Advance(0), Pushed(SLOW));
    PopAlone(Pushed(SLOW), 1, s3);
    PopAlone(s3, 1, s4);
    FourParts(Pushed(Idle), [StartPop(0)], s1, [Advance(0)], Pushed(SLOW), PopEvents(1), s3, PopEvents(1), s4);
    OneStep(s4, Scribble(1, Null), Emptied(2));
    LeadsOn(Pushed(Idle), [StartPop(0)] + [Advance(0)] + PopEvents(1) + PopEvents(1), s4, [Scribble(1, Null)],
            Emptied(2));
  }

  // Node 1 alone on the stack, pushed last.
  function Refilled(count: nat): State {
    State(Pack(Item(1, count)), map[1 := Null, 2 := Null], count, map[0 := SLOW, 1 := Idle],
          [Item(1, count)], map[1 := count, 2 := 1], map[1 := OnStack, 2 := Out])
  }

  function Rounds(n: nat): seq<Event> {
    if n == 0 then [] else PushEvents(1, 1) + PopEvents(1) + Rounds(n - 1)
  }

  lemma OneRound(count: nat)
    ensures Leads(Emptied(count), PushEvents(1, 1), Refilled(count + 1))
    ensures Leads(Emptied(count), PushEvents(1, 1) + PopEvents(1), Emptied(count + 1))
  {
    PushAlone(Emptied(count), 1, 1, Refilled(count + 1));
    PopAlone(Refilled(count + 1), 1, Emptied(count + 1));
    LeadsOn(Emptied(count), PushEvents(1, 1), Refilled(count + 1), PopEvents(1), Emptied(count + 1));
  }

  lemma {:induction false} RoundsRun(count: nat, n: nat)
    ensures Leads(Emptied(count), Rounds(n), Emptied(count + n))
    decreases n
  {
    if n > 0 {
      RoundsRun(count + 1, n - 1);
      OneMoreRound(count, Rounds(n - 1), Emptied(count + n));
    }
  }

  lemma OneMoreRound(count: nat, rest: seq<Event>, to: State)
    requires Leads(Emptied(count + 1), rest, to)
    ensures Leads(Emptied(count), PushEvents(1, 1) + PopEvents(1) + rest, to)
  {
    OneRound(count);
    LeadsOn(Emptied(count), PushEvents(1, 1) + PopEvents(1), Emptied(count + 1), rest, to);
  }

  // After exactly 2^17 pushes the pop of thread 0 takes the word it knows for
  // unchanged, and does not fit: it puts node 2 back on top although somebody
  // has node 2. The bound in InTime cannot be raised.
  lemma OneNodeTwice(round: nat)
    requires round == 0x2_0000
    ensures Init(NOTHING)
    ensures Leads(NOTHING, OPENING + MIDDLE + Rounds(round - 1) + PushEvents(1, 1), Refilled(round + 2))
    ensures Enabled(Refilled(round + 2), Advance(0)) && Takes(Refilled(round + 2), Advance(0))
    ensures Refilled(round + 2).count == Refilled(round + 2).agents[0].item.serial + round
    ensures !Fits(Refilled(round + 2), Advance(0))
    ensures var st := Next(Refilled(round + 2), Advance(0)); st.top == Ptr(2, 1) && IsOut(st, 2)
  {
    OpeningRuns();
    MiddleRuns();
    RoundsRun(2, round - 1);
    OneRound(round + 1);
    FourParts(NOTHING, OPENING, Pushed(Idle), MIDDLE, Emptied(2), Rounds(round - 1), Emptied(round + 1),
              PushEvents(1, 1), Refilled(round + 2));
  }
}
