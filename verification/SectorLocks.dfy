// The multi-threaded chat server's sector lists and the lock of its key table.
// Workers hold several locks at once: both cells of a move, all cells around a
// speaker, and, in a login or a broadcast that drops another session's last
// count, also those of that session's disconnect handler, which then runs
// inside. Each player has at most one message in work at a time.
module SectorLocks {
  import opened SectorGrid
  import opened Wrappers

  type Id = nat
  type Key = nat

  datatype Lock = Sector(cell: Cell) | Keys

  // How a login ends: it completes, its key is in the table but a name in it is
  // bad, or the table has no place for it.
  datatype Outcome = Completed | Misnamed | Refused

  datatype Op =
    | Move(source: Cell, target: Cell)
    | Join(target: Cell)
    | Broadcast(centre: Cell)
    | Login(key: Key, outcome: Outcome)
    // The three parts of the disconnect handler.
    | Check(place: Cell)
    | Leave(place: Cell)
    | Delete(key: Key)
  {
    predicate Departs() {
      Check? || Leave? || Delete?
    }
  }

  // Locking(n), Unlocking(n): the first n locks of the plan are taken, given
  // back. Working(n): all are held and n pieces of work are done. Reading(n):
  // a broadcast goes through the list of the nth cell. Stuck: the move found
  // nothing to remove and returned without unlocking.
  datatype Stage = Locking(n: nat) | Working(n: nat) | Reading(n: nat) | Unlocking(n: nat) | Stuck

  // under: the player inside whose operation this handler runs.
  datatype Task = Idle | Busy(op: Op, plan: seq<Lock>, stage: Stage, under: Option<Id>)

  // indexed: the player's status is PLAYER; key: it has logged in; inner: whose
  // handler runs inside its operation. The rest is about its broadcast: whom it
  // reached, who is left in the list it reads, and who was taken out of the
  // lists by a handler inside it.
  datatype Player = Player(cell: Cell, indexed: bool, key: Option<Key>, task: Task, inner: Option<Id>,
                           heard: seq<Id>, todo: seq<Id>, dropped: seq<Id>)

  // locks: who holds each lock; handlers inside an operation hold theirs in the
  // name of that operation's player.
  datatype State = State(lists: Lists<Id>, keys: map<Key, Id>, players: map<Id, Player>, locks: map<Lock, Id>)

  // Drop: the operation of p lowers the last count of q's session.
  datatype Event =
    | BeginMove(p: Id, target: Cell)
    | BeginJoin(p: Id, target: Cell)
    | BeginLogin(p: Id, key: Key, outcome: Outcome)
    | BeginLeave(p: Id)
    | BeginBroadcast(p: Id)
    | Advance(p: Id)
    | Drop(p: Id, q: Id)

  // ---- which locks, in which order -----------------------------------------------------

  // By X, then by Y.
  predicate Lower(a: Cell, b: Cell) {
    a.x < b.x || (a.x == b.x && a.y < b.y)
  }

  predicate Ascending(cells: seq<Cell>) {
    forall i, j :: 0 <= i < j < |cells| ==> Lower(cells[i], cells[j])
  }

  // SectorLockByIndexOrder.
  function LockOrder(before: Cell, current: Cell): (order: seq<Cell>)
    ensures |order| == 2
    ensures before != current ==> Ascending(order) && multiset(order) == multiset{before, current}
  {
    if before.x < current.x then [before, current]
    else if before.x == current.x then
      if before.y < current.y then [before, current] else [current, before]
    else [current, before]
  }

  // The nested loops of MsgSectorBroadCasting: X outside, Y inside.
  function Candidates(c: Cell): (cells: seq<Cell>)
    ensures Ascending(cells) && forall d :: d in cells <==> Near(d, c)
  {
    var cells := [Cell(c.x - 1, c.y - 1), Cell(c.x - 1, c.y), Cell(c.x - 1, c.y + 1),
                  Cell(c.x, c.y - 1), Cell(c.x, c.y), Cell(c.x, c.y + 1),
                  Cell(c.x + 1, c.y - 1), Cell(c.x + 1, c.y), Cell(c.x + 1, c.y + 1)];
    assert forall d :: Near(d, c) ==> d == Cell(c.x + (d.x - c.x), c.y + (d.y - c.y));
    cells
  }

  function Existing(g: Grid, cells: seq<Cell>): (r: seq<Cell>)
    ensures forall d :: d in r <==> d in cells && g.Has(d)
  {
    if cells == [] then []
    else
      assert cells == [cells[0]] + cells[1..];
      (if g.Has(cells[0]) then [cells[0]] else []) + Existing(g, cells[1..])
  }

  lemma {:induction false} ExistingAscending(g: Grid, cells: seq<Cell>)
    requires Ascending(cells)
    ensures Ascending(Existing(g, cells))
  {
    if cells != [] {
      ExistingAscending(g, cells[1..]);
      var rest := Existing(g, cells[1..]);
      forall j | 0 <= j < |rest|
        ensures Lower(cells[0], rest[j])
      {
        assert rest[j] in rest;
        assert rest[j] in cells[1..];
      }
    }
  }

  function Sectors(cells: seq<Cell>): (locks: seq<Lock>)
    ensures |locks| == |cells| && forall i :: 0 <= i < |cells| ==> locks[i] == Sector(cells[i])
  {
    seq(|cells|, i requires 0 <= i < |cells| => Sector(cells[i]))
  }

  function Plan(g: Grid, op: Op): seq<Lock> {
    match op
    case Move(source, target) => Sectors(LockOrder(source, target))
    case Join(target) => [Sector(target)]
    case Broadcast(centre) => Sectors(Existing(g, Candidates(centre)))
    case Login(_, _) => [Keys]
    case Check(place) => [Sector(place)]
    case Leave(place) => [Sector(place)]
    case Delete(_) => [Keys]
  }

  // Every operation names cells of the grid; a move changes the cell.
  predicate OpOk(g: Grid, op: Op) {
    match op
    case Move(source, target) => g.Has(source) && g.Has(target) && source != target
    case Join(target) => g.Has(target)
    case Broadcast(centre) => g.Has(centre)
    case Login(_, _) => true
    case Check(place) => g.Has(place)
    case Leave(place) => g.Has(place)
    case Delete(_) => true
  }

  predicate Rising(plan: seq<Lock>) {
    forall i, j :: 0 <= i < j < |plan| ==> plan[i].Sector? && plan[j].Sector? && Lower(plan[i].cell, plan[j].cell)
  }

  predicate OnMap(g: Grid, l: Lock) {
    l.Sector? ==> g.Has(l.cell)
  }

  // What the proofs use of a plan: rising, on the map, and the right locks.
  ghost predicate PlanFor(g: Grid, op: Op, plan: seq<Lock>) {
    && plan != [] && Rising(plan) && (forall l :: l in plan ==> OnMap(g, l))
    && match op
       case Move(source, target) => Sector(source) in plan && Sector(target) in plan && |plan| == 2
       case Broadcast(centre) => forall l :: l in plan <==> l.Sector? && g.Has(l.cell) && Near(l.cell, centre)
       case _ => plan == Plan(g, op)
  }

  lemma SectorsRise(cells: seq<Cell>)
    requires Ascending(cells)
    ensures Rising(Sectors(cells))
    ensures forall l: Lock :: l in Sectors(cells) <==> l.Sector? && l.cell in cells
  {
    forall l: Lock | l.Sector? && l.cell in cells
      ensures l in Sectors(cells)
    {
      var i :| 0 <= i < |cells| && cells[i] == l.cell;
      assert Sectors(cells)[i] == l;
    }
  }

  lemma PlanOk(g: Grid, op: Op)
    requires OpOk(g, op)
    ensures PlanFor(g, op, Plan(g, op))
  {
    match op
    case Move(source, target) =>
      SectorsRise(LockOrder(source, target));
      InOrder(source, target);
    case Broadcast(centre) =>
      ExistingAscending(g, Candidates(centre));
      SectorsRise(Existing(g, Candidates(centre)));
      assert Near(centre, centre) && Sector(centre) in Plan(g, op);
    case _ =>
  }

  lemma InOrder(source: Cell, target: Cell)
    ensures source in LockOrder(source, target) && target in LockOrder(source, target)
    ensures forall c :: c in LockOrder(source, target) ==> c == source || c == target
  {
  }

  // ---- one step --------------------------------------------------------------------------

  datatype ListOp = Keep | EraseAt(c: Cell) | AppendAt(c: Cell)
  datatype LockOp = NoLock | Acquire(l: Lock) | Release(l: Lock)
  datatype KeyOp = SameKeys | Insert(k: Key) | Remove(k: Key)
  datatype Effect = Effect(next: Player, list: ListOp, lock: LockOp, keys: KeyOp)

  function At(l: Player, stage: Stage): Player
    requires l.task.Busy?
  {
    l.(task := l.task.(stage := stage))
  }

  function Only(next: Player): Effect {
    Effect(next, Keep, NoLock, SameKeys)
  }

  // What happens once all locks are held. `found`: the player stands in the
  // list that is searched; `list`: the one a broadcast opens next. The search
  // of a check has no effect; a login displaces whoever has the key.
  function Work(l: Player, n: nat, found: bool, list: seq<Id>): Effect
    requires l.task.Busy?
  {
    match l.task.op
    case Move(source, target) =>
      if n == 0 then Effect(At(l, if found then Working(1) else Stuck), EraseAt(source), NoLock, SameKeys)
      else Effect(At(l, Unlocking(0)), AppendAt(target), NoLock, SameKeys)
    case Join(target) => Effect(At(l, Unlocking(0)), AppendAt(target), NoLock, SameKeys)
    case Broadcast(_) => Only(At(l, Reading(n)).(todo := list))
    case Login(key, outcome) =>
      Effect(At(l, Unlocking(0)), Keep, NoLock, if outcome == Refused then Remove(key) else Insert(key))
    case Check(_) => Only(At(l, Unlocking(0)))
    case Leave(place) => Effect(At(l, Unlocking(0)), EraseAt(place), NoLock, SameKeys)
    case Delete(key) => Effect(At(l, Unlocking(0)), Keep, NoLock, Remove(key))
  }

  // A broadcast sends to the next in the list, or goes on to the next list.
  function Read(l: Player, n: nat): Player
    requires l.task.Busy?
  {
    if l.todo != [] then l.(heard := l.heard + [l.todo[0]], todo := l.todo[1..])
    else At(l, if n + 1 < |l.task.plan| then Working(n + 1) else Unlocking(0))
  }

  // After the last unlock. The disconnect handler checks, leaves, and deletes
  // the key.
  function Finished(l: Player): Player
    requires l.task.Busy?
  {
    match l.task.op
    case Login(key, outcome) => l.(task := Idle, key := if outcome == Completed then Some(key) else l.key)
    case Check(place) => l.(task := Busy(Leave(place), [Sector(place)], Locking(0), l.task.under))
    case Leave(_) =>
      l.(task := Busy(Delete(if l.key.Some? then l.key.value else 0), [Keys], Locking(0), l.task.under))
    case Delete(_) => l.(task := Idle, indexed := false, key := None)
    case _ => l.(task := Idle)
  }

  // In whose name it holds locks.
  function Worker(p: Id, l: Player): Id {
    if l.task.Busy? && l.task.under.Some? then l.task.under.value else p
  }

  // The locks are recursive: one that the worker holds already is free for it.
  predicate Free(st: State, l: Lock, w: Id) {
    l in st.locks ==> st.locks[l] == w
  }

  function NextStep(st: State, p: Id): Option<Effect>
    requires p in st.players
  {
    var l := st.players[p];
    if l.task == Idle || l.inner.Some? then None
    else
      var plan := l.task.plan;
      match l.task.stage
      case Locking(n) =>
        if n >= |plan| || !Free(st, plan[n], Worker(p, l)) then None
        else Some(Effect(At(l, if n + 1 < |plan| then Locking(n + 1) else Working(0)), Keep, Acquire(plan[n]),
                         SameKeys))
      case Working(n) =>
        Some(Work(l, n, p in ListAt(st.lists, HomeList(l.task.op)),
                  if n < |plan| then ListUnder(st.lists, plan[n]) else []))
      case Reading(n) => Some(Only(Read(l, n)))
      case Unlocking(n) =>
        if n >= |plan| then None
        else Some(Effect(if n + 1 < |plan| then At(l, Unlocking(n + 1)) else Finished(l), Keep, Release(plan[n]),
                         SameKeys))
      case Stuck => None
  }

  function ListAt(lists: Lists<Id>, c: Cell): seq<Id> {
    if c in lists then lists[c] else []
  }

  function ListUnder(lists: Lists<Id>, l: Lock): seq<Id> {
    if l.Sector? then ListAt(lists, l.cell) else []
  }

  function HomeList(op: Op): Cell {
    match op
    case Move(source, _) => source
    case Join(target) => target
    case Broadcast(centre) => centre
    case Check(place) => place
    case Leave(place) => place
    case _ => Cell(0, 0)
  }

  function Start(g: Grid, op: Op): Task {
    Busy(op, Plan(g, op), Locking(0), None)
  }

  // Messages are checked before they start an operation: the sector must be on
  // the map, and a move within a sector does nothing. The new sector is
  // written before any lock is taken. The handler of a session without a place
  // only resets the player.
  function EffectOf(g: Grid, st: State, e: Event): Option<Effect> {
    if e.p !in st.players then None
    else
      var l := st.players[e.p];
      match e
      case BeginMove(_, target) =>
        if l.task == Idle && l.indexed && g.Has(target) && target != l.cell
        then Some(Only(l.(cell := target, task := Start(g, Move(l.cell, target))))) else None
      case BeginJoin(_, target) =>
        if l.task == Idle && !l.indexed && l.key.Some? && g.Has(target)
        then Some(Only(l.(cell := target, indexed := true, task := Start(g, Join(target))))) else None
      case BeginLogin(_, key, outcome) =>
        if l.task == Idle && !l.indexed && l.key == None
        then Some(Only(l.(task := Start(g, Login(key, outcome))))) else None
      case BeginLeave(_) =>
        if l.task != Idle then None
        else Some(Only(if l.indexed then l.(task := Start(g, Check(l.cell))) else l.(key := None)))
      case BeginBroadcast(_) =>
        if l.task == Idle
        then Some(Only(l.(heard := [], todo := [], dropped := [], task := Start(g, Broadcast(l.cell))))) else None
      case Advance(_) => NextStep(st, e.p)
      case Drop(_, _) => None
  }

  // What the operation it runs inside sees of a step of the handler.
  function HostAfter(h: Player, q: Id, f: Effect): Player {
    h.(inner := if f.next.task == Idle then None else h.inner,
       dropped := if f.list.EraseAt? then h.dropped + [q] else h.dropped)
  }

  function Settle(players: map<Id, Player>, p: Id, f: Effect): map<Id, Player>
    requires p in players
  {
    var w := Worker(p, players[p]);
    if w != p && w in players then players[p := f.next][w := HostAfter(players[w], p, f)] else players[p := f.next]
  }

  // The locks of the operation the handler of p runs inside.
  function HostHeld(players: map<Id, Player>, p: Id): set<Lock>
    requires p in players
  {
    var w := Worker(p, players[p]);
    if w != p && w in players then HeldSet(players[w]) else {}
  }

  function ListsAfter(lists: Lists<Id>, p: Id, op: ListOp): Lists<Id> {
    match op
    case Keep => lists
    case EraseAt(c) => if c in lists then lists[c := EraseAll(lists[c], p)] else lists
    case AppendAt(c) => Appended(lists, c, p)
  }

  function KeysAfter(keys: map<Key, Id>, p: Id, op: KeyOp): map<Key, Id> {
    match op
    case SameKeys => keys
    case Insert(k) => keys[k := p]
    case Remove(k) => keys - {k}
  }

  // A recursive lock is given back when the operation around has it no more.
  function LocksAfter(locks: map<Lock, Id>, w: Id, host: set<Lock>, op: LockOp): map<Lock, Id> {
    match op
    case NoLock => locks
    case Acquire(l) => locks[l := w]
    case Release(l) => if l in host then locks else locks - {l}
  }

  function Apply(st: State, p: Id, f: Effect): State
    requires p in st.players
  {
    State(ListsAfter(st.lists, p, f.list), KeysAfter(st.keys, p, f.keys), Settle(st.players, p, f),
          LocksAfter(st.locks, Worker(p, st.players[p]), HostHeld(st.players, p), f.lock))
  }

  // A session without work of its own loses its last count to the send of a
  // broadcast that has just reached it, or to the login that displaces it.
  predicate CanDrop(st: State, p: Id, q: Id) {
    && p in st.players && q in st.players && st.players[q].task == Idle && st.players[q].indexed
    && st.players[p].task.Busy? && st.players[p].inner == None
    && var l := st.players[p];
       match l.task.op
       case Broadcast(_) =>
         && l.task.stage.Reading? && l.task.stage.n < |l.task.plan|
         && l.heard != [] && l.heard[|l.heard| - 1] == q && l.task.plan[l.task.stage.n] == Sector(st.players[q].cell)
       case Login(key, _) => l.task.stage == Working(0) && key in st.keys && st.keys[key] == q
       case _ => false
  }

  function Handled(q: Player, p: Id): Player {
    q.(task := Busy(Check(q.cell), [Sector(q.cell)], Locking(0), Some(p)))
  }

  function Dropped(st: State, p: Id, q: Id): State
    requires CanDrop(st, p, q)
  {
    st.(players := st.players[p := st.players[p].(inner := Some(q))][q := Handled(st.players[q], p)])
  }

  function Next(g: Grid, st: State, e: Event): Option<State> {
    if e.Drop? then if CanDrop(st, e.p, e.q) then Some(Dropped(st, e.p, e.q)) else None
    else match EffectOf(g, st, e)
      case None => None
      case Some(f) => Some(Apply(st, e.p, f))
  }

  // ---- the invariant ----------------------------------------------------------------------

  // The locks an operation holds.
  function Held(l: Player): (locks: seq<Lock>) {
    if l.task == Idle then []
    else
      var plan := l.task.plan;
      match l.task.stage
      case Locking(n) => if n <= |plan| then plan[..n] else plan
      case Unlocking(n) => if n <= |plan| then plan[n..] else []
      case _ => plan
  }

  // The list the player stands in.
  function Where(l: Player): Option<Cell> {
    match l.task
    case Idle => if l.indexed then Some(l.cell) else None
    case Busy(op, _, stage, _) =>
      match op
      case Move(source, target) =>
        if stage.Locking? || stage == Working(0) then Some(source)
        else if stage.Unlocking? then Some(target)
        else None
      case Join(target) => if stage.Unlocking? then Some(target) else None
      case Broadcast(_) => if l.indexed then Some(l.cell) else None
      case Check(place) => Some(place)
      case Leave(place) => if stage.Unlocking? then None else Some(place)
      case _ => None
  }

  ghost predicate PlayerOk(g: Grid, l: Player) {
    && g.Has(l.cell) && (l.indexed ==> l.key.Some?)
    && (l.task.Busy? ==>
          OpOk(g, l.task.op) && PlanFor(g, l.task.op, l.task.plan) && OwnSector(l) && StageOk(l.task)
          && (l.task.under.Some? ==> l.task.op.Departs()))
    && (l.inner.Some? ==> Hosting(l))
  }

  // Only these run a handler inside.
  predicate Hosting(l: Player) {
    && l.task.Busy? && l.task.under == None
    && ((l.task.op.Broadcast? && l.task.stage.Reading?) || (l.task.op.Login? && l.task.stage == Working(0)))
  }

  predicate OwnSector(l: Player)
    requires l.task.Busy?
  {
    match l.task.op
    case Move(_, target) => l.indexed && l.cell == target
    case Join(target) => l.indexed && l.cell == target
    case Broadcast(centre) => l.cell == centre
    case Login(_, _) => !l.indexed
    case Check(place) => l.indexed && l.cell == place
    case Leave(place) => l.indexed && l.cell == place
    case Delete(_) => l.indexed
  }

  predicate StageOk(task: Task)
    requires task.Busy?
  {
    match task.stage
    case Locking(n) => n < |task.plan|
    case Working(n) => if task.op.Broadcast? then n < |task.plan| else n == 0 || (n == 1 && task.op.Move?)
    case Reading(n) => task.op.Broadcast? && n < |task.plan|
    case Unlocking(n) => n < |task.plan|
    case Stuck => false
  }

  // The handler runs inside the operation that says so; inside a broadcast, it
  // is that of a player in the list being read.
  ghost predicate NestOk(players: map<Id, Player>) {
    && (forall p :: p in players && players[p].inner.Some? ==> Inside(players, players[p].inner.value, p))
    && forall q :: q in players && Nested(players[q]) ==>
         && players[q].task.under.value in players && players[players[q].task.under.value].inner == Some(q)
         && HostFits(players[players[q].task.under.value], players[q])
  }

  predicate Nested(l: Player) {
    l.task.Busy? && l.task.under.Some?
  }

  predicate Inside(players: map<Id, Player>, q: Id, p: Id) {
    q in players && Nested(players[q]) && players[q].task.under.value == p
  }

  predicate HostFits(h: Player, l: Player) {
    h.task.Busy? && h.task.op.Broadcast? ==>
      h.task.stage.Reading? && h.task.stage.n < |h.task.plan| && h.task.plan[h.task.stage.n] == Sector(l.cell)
  }

  // The lock table against the locks each worker should hold.
  ghost predicate TableOk(locks: map<Lock, Id>, held: map<Id, set<Lock>>) {
    && (forall c :: c in locks ==> locks[c] in held && c in held[locks[c]])
    && forall p, c :: p in held && c in held[p] ==> c in locks && locks[c] == p
  }

  function SetOf(locks: seq<Lock>): set<Lock> {
    set l | l in locks
  }

  function HeldSet(l: Player): set<Lock> {
    SetOf(Held(l))
  }

  // Its own and those of the handler inside.
  function HeldBy(players: map<Id, Player>, p: Id): set<Lock>
    requires p in players
  {
    if Nested(players[p]) then {}
    else HeldSet(players[p]) + InnerHeld(players, players[p].inner)
  }

  function InnerHeld(players: map<Id, Player>, inner: Option<Id>): set<Lock> {
    if inner.Some? && inner.value in players then HeldSet(players[inner.value]) else {}
  }

  function HeldSets(players: map<Id, Player>): map<Id, set<Lock>> {
    map p | p in players :: HeldBy(players, p)
  }

  ghost predicate LocksOk(st: State) {
    TableOk(st.locks, HeldSets(st.players))
  }

  ghost predicate RightPlace(lists: Lists<Id>, p: Id, l: Player) {
    match Where(l)
    case Some(c) => IndexedAt(lists, p, c)
    case None => Absent(lists, p)
  }

  ghost predicate PlacesOk(g: Grid, lists: Lists<Id>, players: map<Id, Player>) {
    && Covers(lists, g)
    && (forall p :: p in players ==> RightPlace(lists, p, players[p]))
    && forall p :: p !in players ==> Absent(lists, p)
  }

  // The cells a broadcast under way has opened.
  function ReadSoFar(l: Player): seq<Lock>
    requires l.task.Busy?
  {
    match l.task.stage
    case Working(n) => if n <= |l.task.plan| then l.task.plan[..n] else []
    case Reading(n) => if n < |l.task.plan| then l.task.plan[..n + 1] else []
    case _ => []
  }

  predicate Gathering(l: Player) {
    l.task.Busy? && l.task.op.Broadcast? && (l.task.stage.Locking? || l.task.stage.Working? || l.task.stage.Reading?)
  }

  // Everyone in the lists of these cells.
  ghost function Standing(lists: Lists<Id>, read: seq<Lock>): multiset<Id> {
    if read == [] then multiset{}
    else Standing(lists, read[..|read| - 1]) + multiset(ListUnder(lists, read[|read| - 1]))
  }

  // It has reached, or will reach in this list, exactly those who stand in the
  // lists it opened now and those a handler inside it took out of them.
  ghost predicate HeardOk(lists: Lists<Id>, l: Player) {
    Gathering(l) ==>
      && Counted(lists, ReadSoFar(l), l.heard, l.todo, l.dropped)
      && AllGone(lists, l.task.plan, l.dropped)
      && (!l.task.stage.Reading? ==> l.todo == [])
      && (l.task.stage.Locking? ==> l.dropped == [])
  }

  ghost predicate Counted(lists: Lists<Id>, read: seq<Lock>, heard: seq<Id>, todo: seq<Id>, dropped: seq<Id>) {
    multiset(heard) + multiset(todo) == Standing(lists, read) + multiset(dropped)
  }

  ghost predicate AllGone(lists: Lists<Id>, plan: seq<Lock>, dropped: seq<Id>) {
    forall q :: q in dropped ==> Gone(lists, plan, dropped, q)
  }

  // Taken out once, and not back in any cell of the plan.
  ghost predicate Gone(lists: Lists<Id>, plan: seq<Lock>, dropped: seq<Id>, q: Id) {
    Times(dropped, q) == 1 && forall c :: c in plan ==> q !in ListUnder(lists, c)
  }

  ghost predicate Inv(g: Grid, st: State) {
    && (forall p :: p in st.players ==> PlayerOk(g, st.players[p]))
    && NestOk(st.players) && LocksOk(st) && PlacesOk(g, st.lists, st.players)
    && forall p :: p in st.players ==> HeardOk(st.lists, st.players[p])
  }

  ghost predicate Init(g: Grid, st: State) {
    && (forall p :: p in st.players ==> Newcomer(g, st.players[p]))
    && st.locks == map[] && st.keys == map[] && Covers(st.lists, g) && forall c :: c in st.lists ==> st.lists[c] == []
  }

  predicate Newcomer(g: Grid, l: Player) {
    g.Has(l.cell) && !l.indexed && l.key == None && l.task == Idle && l.inner == None && l.dropped == []
  }

  lemma InitInv(g: Grid, st: State)
    requires Init(g, st)
    ensures Inv(g, st)
  {
  }

  // ---- what every effect respects ----------------------------------------------------------

  ghost predicate Disciplined(g: Grid, l: Player, f: Effect, st: State, w: Id) {
    && PlayerOk(g, f.next) && LockDiscipline(l, f, st, w) && ListDiscipline(g, l, f)
    && l.inner == None && f.next.inner == None
    && (Nested(l) ==>
          f.next.cell == l.cell
          && (f.next.task == Idle || (Nested(f.next) && f.next.task.under == l.task.under)))
    && (!Nested(l) ==> !Nested(f.next))
  }

  predicate LockDiscipline(l: Player, f: Effect, st: State, w: Id) {
    match f.lock
    case NoLock => HeldSet(f.next) == HeldSet(l)
    case Acquire(c) => Free(st, c, w) && HeldSet(f.next) == HeldSet(l) + {c}
    case Release(c) => c in HeldSet(l) && HeldSet(f.next) == HeldSet(l) - {c}
  }

  predicate ListDiscipline(g: Grid, l: Player, f: Effect) {
    match f.list
    case Keep => Where(f.next) == Where(l)
    case EraseAt(c) => g.Has(c) && Sector(c) in HeldSet(l) && Where(l) == Some(c) && Where(f.next) == None
    case AppendAt(c) =>
      g.Has(c) && Sector(c) in HeldSet(l) && Where(l) == None && Where(f.next) == Some(c) && !Nested(l)
  }

  lemma BeginDisciplined(g: Grid, st: State, e: Event)
    requires !e.Advance? && EffectOf(g, st, e).Some? && PlayerOk(g, st.players[e.p])
    ensures Disciplined(g, st.players[e.p], EffectOf(g, st, e).value, st, Worker(e.p, st.players[e.p]))
  {
    if EffectOf(g, st, e).value.next.task.Busy? {
      StartOk(g, EffectOf(g, st, e).value.next);
    }
  }

  lemma StartOk(g: Grid, l: Player)
    requires l.task.Busy? && l.task == Start(g, l.task.op) && OpOk(g, l.task.op) && OwnSector(l) && g.Has(l.cell)
    requires l.inner == None && (l.indexed ==> l.key.Some?)
    ensures PlayerOk(g, l) && HeldSet(l) == {}
  {
    PlanOk(g, l.task.op);
  }

  lemma LockingDisciplined(g: Grid, st: State, p: Id)
    requires p in st.players && PlayerOk(g, st.players[p])
    requires st.players[p].task.Busy? && st.players[p].task.stage.Locking? && NextStep(st, p).Some?
    ensures Disciplined(g, st.players[p], NextStep(st, p).value, st, Worker(p, st.players[p]))
  {
  }

  lemma UnlockingDisciplined(g: Grid, st: State, p: Id)
    requires p in st.players && PlayerOk(g, st.players[p])
    requires st.players[p].task.Busy? && st.players[p].task.stage.Unlocking? && NextStep(st, p).Some?
    ensures Disciplined(g, st.players[p], NextStep(st, p).value, st, Worker(p, st.players[p]))
  {
    var l, n := st.players[p], st.players[p].task.stage.n;
    RestOfPlan(l.task.plan, n);
    if n + 1 < |l.task.plan| {
      StageMoves(g, l, Unlocking(n + 1));
    } else {
      assert l.task.plan[n + 1..] == [];
      FinishedOk(g, l);
    }
  }

  lemma RestOfPlan(plan: seq<Lock>, n: nat)
    requires n < |plan| && Rising(plan)
    ensures SetOf(plan[n + 1..]) == SetOf(plan[n..]) - {plan[n]} && plan[n] in SetOf(plan[n..])
  {
  }

  lemma StageMoves(g: Grid, l: Player, stage: Stage)
    requires PlayerOk(g, l) && l.task.Busy? && StageOk(l.task.(stage := stage)) && l.inner == None
    ensures PlayerOk(g, At(l, stage))
  {
  }

  lemma FinishedOk(g: Grid, l: Player)
    requires PlayerOk(g, l) && l.task.Busy? && l.task.stage.Unlocking? && l.inner == None
    ensures PlayerOk(g, Finished(l)) && HeldSet(Finished(l)) == {} && Where(Finished(l)) == Where(l)
    ensures Finished(l).cell == l.cell && Finished(l).inner == None
    ensures Finished(l).task == Idle || Finished(l).task.under == l.task.under
  {
  }

  // The work itself, which moves nothing but the stage, the list, the keys.
  lemma WorkOk(g: Grid, l: Player, n: nat, found: bool, list: seq<Id>)
    requires PlayerOk(g, l) && l.task.Busy? && l.task.stage == Working(n) && l.inner == None
    requires l.task.op.Move? && n == 0 ==> found
    ensures PlayerOk(g, Work(l, n, found, list).next)
  {
  }

  lemma WorkDisciplined(g: Grid, l: Player, n: nat, found: bool, list: seq<Id>)
    requires PlayerOk(g, l) && l.task.Busy? && l.task.stage == Working(n)
    requires l.task.op.Move? && n == 0 ==> found
    ensures HeldSet(Work(l, n, found, list).next) == HeldSet(l) && ListDiscipline(g, l, Work(l, n, found, list))
  {
    WorkHolds(l, n, found, list);
    assert Held(l) == l.task.plan;
  }

  lemma WorkHolds(l: Player, n: nat, found: bool, list: seq<Id>)
    requires l.task.Busy? && l.task.stage == Working(n)
    ensures HeldSet(Work(l, n, found, list).next) == HeldSet(l)
  {
    assert l.task.plan[0..] == l.task.plan;
  }

  lemma WorkingDisciplined(g: Grid, st: State, p: Id)
    requires p in st.players && PlayerOk(g, st.players[p]) && RightPlace(st.lists, p, st.players[p])
    requires st.players[p].task.Busy? && st.players[p].task.stage.Working? && NextStep(st, p).Some?
    ensures Disciplined(g, st.players[p], NextStep(st, p).value, st, Worker(p, st.players[p]))
  {
    var l := st.players[p];
    var n, plan := l.task.stage.n, l.task.plan;
    var found := p in ListAt(st.lists, HomeList(l.task.op));
    if l.task.op.Move? && n == 0 {
      assert p in st.lists[l.task.op.source];
    }
    var list := if n < |plan| then ListUnder(st.lists, plan[n]) else [];
    WorkOk(g, l, n, found, list);
    WorkDisciplined(g, l, n, found, list);
  }

  lemma ReadingDisciplined(g: Grid, st: State, p: Id)
    requires p in st.players && PlayerOk(g, st.players[p])
    requires st.players[p].task.Busy? && st.players[p].task.stage.Reading? && NextStep(st, p).Some?
    ensures Disciplined(g, st.players[p], NextStep(st, p).value, st, Worker(p, st.players[p]))
  {
    var plan := st.players[p].task.plan;
    assert plan[0..] == plan;
  }

  lemma EffectsDisciplined(g: Grid, st: State, e: Event)
    requires Inv(g, st) && EffectOf(g, st, e).Some?
    ensures Disciplined(g, st.players[e.p], EffectOf(g, st, e).value, st, Worker(e.p, st.players[e.p]))
  {
    assert RightPlace(st.lists, e.p, st.players[e.p]);
    if !e.Advance? {
      BeginDisciplined(g, st, e);
    } else if st.players[e.p].task.stage.Locking? {
      LockingDisciplined(g, st, e.p);
    } else if st.players[e.p].task.stage.Working? {
      WorkingDisciplined(g, st, e.p);
    } else if st.players[e.p].task.stage.Reading? {
      ReadingDisciplined(g, st, e.p);
    } else {
      UnlockingDisciplined(g, st, e.p);
    }
  }

  // ---- handlers inside operations ------------------------------------------------------------

  // What a step leaves as it was: everything of the others, except that the
  // operation a handler runs inside notices.
  lemma SettleOthers(players: map<Id, Player>, p: Id, f: Effect, u: Id)
    requires p in players && u in players && u != p
    ensures u in Settle(players, p, f) && p in Settle(players, p, f) && Settle(players, p, f)[p] == f.next
    ensures Settle(players, p, f)[u] == if u == Worker(p, players[p]) then HostAfter(players[u], p, f) else players[u]
  {
  }

  lemma SettleKeys(players: map<Id, Player>, p: Id, f: Effect)
    requires p in players
    ensures Settle(players, p, f).Keys == players.Keys && Settle(players, p, f)[p] == f.next
  {
  }

  lemma ApplyNest(g: Grid, st: State, p: Id, f: Effect)
    requires NestOk(st.players) && p in st.players
    requires Disciplined(g, st.players[p], f, st, Worker(p, st.players[p]))
    ensures NestOk(Apply(st, p, f).players)
  {
    var players, players' := st.players, Apply(st, p, f).players;
    SettleKeys(players, p, f);
    forall u | u in players && players'[u].inner.Some?
      ensures Inside(players', players'[u].inner.value, u)
    {
      if u != p {
        SettleOthers(players, p, f, u);
        var q := players[u].inner.value;
        assert Inside(players, q, u);
        if q != p {
          SettleOthers(players, p, f, q);
        }
      }
    }
    forall q | q in players && Nested(players'[q])
      ensures NestedWell(players', q)
    {
      if q != p {
        SettleOthers(players, p, f, q);
      }
      assert NestedWell(players, q);
      if players[q].task.under.value != p {
        SettleOthers(players, p, f, players[q].task.under.value);
      }
    }
  }

  ghost predicate NestedWell(players: map<Id, Player>, q: Id)
    requires q in players && Nested(players[q])
  {
    && players[q].task.under.value in players && players[players[q].task.under.value].inner == Some(q)
    && HostFits(players[players[q].task.under.value], players[q])
  }

  lemma ApplyPlayers(g: Grid, st: State, p: Id, f: Effect)
    requires (forall u :: u in st.players ==> PlayerOk(g, st.players[u])) && p in st.players && PlayerOk(g, f.next)
    ensures forall u :: u in Apply(st, p, f).players ==> PlayerOk(g, Apply(st, p, f).players[u])
  {
  }

  // ---- the lock table --------------------------------------------------------------------------

  ghost predicate Prepared(g: Grid, st: State, p: Id, f: Effect) {
    && (forall u :: u in st.players ==> PlayerOk(g, st.players[u])) && NestOk(st.players) && p in st.players
    && Disciplined(g, st.players[p], f, st, Worker(p, st.players[p]))
  }

  lemma HostOf(g: Grid, players: map<Id, Player>, p: Id)
    requires (forall u :: u in players ==> PlayerOk(g, players[u])) && NestOk(players)
    requires p in players && Nested(players[p])
    ensures Worker(p, players[p]) in players && Worker(p, players[p]) != p
    ensures players[Worker(p, players[p])].inner == Some(p) && Hosting(players[Worker(p, players[p])])
    ensures HeldBy(players, Worker(p, players[p])) == HeldSet(players[p]) + HostHeld(players, p)
  {
    assert NestedWell(players, p);
    assert PlayerOk(g, players[Worker(p, players[p])]);
  }

  // What the workers hold after the step.
  lemma WorkerHolds(g: Grid, st: State, p: Id, f: Effect)
    requires Prepared(g, st, p, f)
    ensures var w := Worker(p, st.players[p]);
            && w in st.players && w in Settle(st.players, p, f)
            && HeldBy(st.players, w) == HeldSet(st.players[p]) + HostHeld(st.players, p)
            && HeldBy(Settle(st.players, p, f), w) == HeldSet(f.next) + HostHeld(st.players, p)
  {
    var w := Worker(p, st.players[p]);
    SettleKeys(st.players, p, f);
    if Nested(st.players[p]) {
      HostOf(g, st.players, p);
      SettleOthers(st.players, p, f, w);
      HostKeepsLocks(st.players[w], p, f);
    }
  }

  lemma OthersHold(g: Grid, st: State, p: Id, f: Effect, u: Id)
    requires Prepared(g, st, p, f) && u in st.players && u != Worker(p, st.players[p])
    ensures u in Settle(st.players, p, f) && HeldBy(Settle(st.players, p, f), u) == HeldBy(st.players, u)
  {
    SettleKeys(st.players, p, f);
    if u != p {
      SettleOthers(st.players, p, f, u);
      var inner := st.players[u].inner;
      if inner.Some? {
        assert Inside(st.players, inner.value, u);
        SettleOthers(st.players, p, f, inner.value);
        HostKeepsLocks(st.players[inner.value], p, f);
      }
    }
  }

  lemma HostKeepsLocks(h: Player, p: Id, f: Effect)
    ensures HeldSet(HostAfter(h, p, f)) == HeldSet(h) && Where(HostAfter(h, p, f)) == Where(h)
  {
  }

  lemma ApplyLocks(g: Grid, st: State, p: Id, f: Effect)
    requires Prepared(g, st, p, f) && LocksOk(st)
    ensures LocksOk(Apply(st, p, f))
  {
    var w, held := Worker(p, st.players[p]), HeldSets(st.players);
    HeldSetsAfter(g, st, p, f);
    WorkerHolds(g, st, p, f);
    TableStep(st.locks, held, w, HeldSet(st.players[p]), HeldSet(f.next), HostHeld(st.players, p), f.lock);
  }

  lemma HeldSetsAfter(g: Grid, st: State, p: Id, f: Effect)
    requires Prepared(g, st, p, f)
    ensures HeldSets(Settle(st.players, p, f))
         == HeldSets(st.players)[Worker(p, st.players[p]) := HeldSet(f.next) + HostHeld(st.players, p)]
  {
    var w := Worker(p, st.players[p]);
    var after := HeldSets(Settle(st.players, p, f));
    WorkerHolds(g, st, p, f);
    SettleKeys(st.players, p, f);
    var expected := HeldSets(st.players)[w := HeldSet(f.next) + HostHeld(st.players, p)];
    forall u | u in expected
      ensures u in after && after[u] == expected[u]
    {
      if u != w {
        OthersHold(g, st, p, f, u);
      }
    }
    SameHeldSets(expected, after);
  }

  lemma TableStep(locks: map<Lock, Id>, held: map<Id, set<Lock>>, w: Id, own: set<Lock>, now: set<Lock>,
                  host: set<Lock>, op: LockOp)
    requires TableOk(locks, held) && w in held && held[w] == own + host
    requires match op
             case NoLock => now == own
             case Acquire(c) => (c in locks ==> locks[c] == w) && now == own + {c}
             case Release(c) => c in own && now == own - {c}
    ensures TableOk(LocksAfter(locks, w, host, op), held[w := now + host])
  {
  }

  // ---- the lists --------------------------------------------------------------------------------

  lemma ApplyPlaces(g: Grid, st: State, p: Id, f: Effect)
    requires PlacesOk(g, st.lists, st.players) && p in st.players && ListDiscipline(g, st.players[p], f)
    ensures PlacesOk(g, Apply(st, p, f).lists, Apply(st, p, f).players)
  {
    assert RightPlace(st.lists, p, st.players[p]);
    SettleKeys(st.players, p, f);
    if f.list != Keep {
      OwnPlace(g, st, p, f);
    }
    forall u | u != p
      ensures u in st.players ==> RightPlace(Apply(st, p, f).lists, u, Apply(st, p, f).players[u])
      ensures u !in st.players ==> Absent(Apply(st, p, f).lists, u)
    {
      if u in st.players {
        SettleOthers(st.players, p, f, u);
        HostKeepsLocks(st.players[u], p, f);
      }
      if f.list != Keep {
        OthersStay(st.lists, g, p, f.list.c, u,
                   if u in st.players && Where(st.players[u]).Some? then Where(st.players[u]).value else f.list.c);
        assert u in st.players ==> RightPlace(st.lists, u, st.players[u]);
      }
    }
  }

  lemma OwnPlace(g: Grid, st: State, p: Id, f: Effect)
    requires Covers(st.lists, g) && p in st.players && f.list != Keep && ListDiscipline(g, st.players[p], f)
    requires RightPlace(st.lists, p, st.players[p])
    ensures RightPlace(Apply(st, p, f).lists, p, f.next)
    ensures Apply(st, p, f).lists
         == if f.list.EraseAt? then Erased(st.lists, f.list.c, p) else Appended(st.lists, f.list.c, p)
  {
    if f.list.EraseAt? {
      EraseOnce(st.lists[f.list.c], p);
      ErasePlaced(st.lists, g, p, f.list.c);
    } else {
      AppendPlaced(st.lists, g, p, f.list.c);
    }
  }

  // ---- what a broadcast has opened stays as it was ----------------------------------------------

  lemma StandingMore(lists: Lists<Id>, plan: seq<Lock>, n: nat)
    requires n < |plan|
    ensures Standing(lists, plan[..n + 1]) == Standing(lists, plan[..n]) + multiset(ListUnder(lists, plan[n]))
  {
    assert plan[..n + 1][..n] == plan[..n];
  }

  // x counts as often as in the lists one by one.
  lemma {:induction false} StandingCount(before: Lists<Id>, after: Lists<Id>, read: seq<Lock>, x: Id)
    requires forall c :: c in read ==> Times(ListUnder(before, c), x) == Times(ListUnder(after, c), x)
    ensures Standing(before, read)[x] == Standing(after, read)[x]
    decreases |read|
  {
    if read != [] {
      StandingCount(before, after, read[..|read| - 1], x);
      assert read[|read| - 1] in read;
    }
  }

  lemma {:induction false} StandingAbsent(lists: Lists<Id>, read: seq<Lock>, x: Id)
    requires forall c :: c in read ==> x !in ListUnder(lists, c)
    ensures Standing(lists, read)[x] == 0
    decreases |read|
  {
    if read != [] {
      StandingAbsent(lists, read[..|read| - 1], x);
      assert read[|read| - 1] in read;
    }
  }

  lemma {:induction false} StandingOnce(lists: Lists<Id>, read: seq<Lock>, x: Id, c: Cell)
    requires Rising(read) && IndexedAt(lists, x, c) && (|read| == 1 ==> read[0].Sector?)
    ensures Standing(lists, read)[x] == if Sector(c) in read then 1 else 0
    decreases |read|
  {
    if read != [] {
      var rest, last := read[..|read| - 1], read[|read| - 1];
      assert read == rest + [last];
      if last == Sector(c) {
        assert last !in rest;
        StandingAbsent(lists, rest, x);
      } else {
        StandingOnce(lists, rest, x, c);
        assert Times(ListUnder(lists, last), x) == 0;
      }
    }
  }

  lemma HeldIsLocked(st: State, p: Id, c: Lock)
    requires LocksOk(st) && p in st.players && c in HeldBy(st.players, p)
    ensures c in st.locks && st.locks[c] == p
  {
    assert c in HeldSets(st.players)[p];
  }

  // A broadcast is never inside another operation, so what it holds is its own.
  lemma SpeakerHolds(g: Grid, st: State, u: Id, c: Lock)
    requires Inv(g, st) && u in st.players && st.players[u].task.Busy? && st.players[u].task.op.Broadcast?
    requires c in HeldSet(st.players[u])
    ensures c in st.locks && st.locks[c] == u
  {
    assert PlayerOk(g, st.players[u]);
    HeldIsLocked(st, u, c);
  }

  lemma ChangerHolds(g: Grid, st: State, p: Id, f: Effect)
    requires Inv(g, st) && Prepared(g, st, p, f) && f.list != Keep
    ensures Sector(f.list.c) in st.locks && st.locks[Sector(f.list.c)] == Worker(p, st.players[p])
  {
    WorkerHolds(g, st, p, f);
    HeldIsLocked(st, Worker(p, st.players[p]), Sector(f.list.c));
  }

  // Another worker's change is to a list whose lock that worker holds, so to
  // none around this speaker.
  lemma OthersHeard(g: Grid, st: State, p: Id, f: Effect, u: Id)
    requires Inv(g, st) && Prepared(g, st, p, f) && u in st.players && u != p && u != Worker(p, st.players[p])
    ensures HeardOk(Apply(st, p, f).lists, st.players[u])
  {
    var l, after := st.players[u], Apply(st, p, f).lists;
    assert HeardOk(st.lists, l) && PlayerOk(g, l);
    if Gathering(l) && !l.task.stage.Locking? {
      forall c | c in l.task.plan
        ensures ListUnder(after, c) == ListUnder(st.lists, c)
      {
        OutOfReach(g, st, p, f, u, c);
      }
      SameStanding(st.lists, after, ReadSoFar(l), l.task.plan, l.dropped);
    }
  }

  lemma OutOfReach(g: Grid, st: State, p: Id, f: Effect, u: Id, c: Lock)
    requires Inv(g, st) && Prepared(g, st, p, f) && u in st.players && u != Worker(p, st.players[p])
    requires Gathering(st.players[u]) && c in HeldSet(st.players[u])
    ensures ListUnder(Apply(st, p, f).lists, c) == ListUnder(st.lists, c)
  {
    SpeakerHolds(g, st, u, c);
    if f.list != Keep {
      ChangerHolds(g, st, p, f);
      ElsewhereSame(st.lists, p, f.list, c);
    }
  }

  lemma ElsewhereSame(lists: Lists<Id>, p: Id, op: ListOp, c: Lock)
    requires op != Keep && c != Sector(op.c)
    ensures ListUnder(ListsAfter(lists, p, op), c) == ListUnder(lists, c)
  {
  }

  lemma SameStanding(before: Lists<Id>, after: Lists<Id>, read: seq<Lock>, plan: seq<Lock>, dropped: seq<Id>)
    requires (forall c :: c in read ==> c in plan) && AllGone(before, plan, dropped)
    requires forall c :: c in plan ==> ListUnder(after, c) == ListUnder(before, c)
    ensures Standing(after, read) == Standing(before, read) && AllGone(after, plan, dropped)
  {
    forall x
      ensures Standing(before, read)[x] == Standing(after, read)[x]
    {
      StandingCount(before, after, read, x);
    }
    forall q | q in dropped
      ensures Gone(after, plan, dropped, q)
    {
      assert Gone(before, plan, dropped, q);
    }
  }

  // The handler takes its player out of the list being read.
  lemma ErasedStanding(before: Lists<Id>, after: Lists<Id>, read: seq<Lock>, q: Id, c: Cell)
    requires Rising(read) && Sector(c) in read && IndexedAt(before, q, c) && after == Erased(before, c, q)
    ensures Standing(before, read) == Standing(after, read) + multiset{q}
  {
    forall x
      ensures Standing(before, read)[x] == (Standing(after, read) + multiset{q})[x]
    {
      ErasedTimes(before, after, read, q, c, x);
    }
  }

  lemma ErasedTimes(before: Lists<Id>, after: Lists<Id>, read: seq<Lock>, q: Id, c: Cell, x: Id)
    requires Rising(read) && Sector(c) in read && IndexedAt(before, q, c) && after == Erased(before, c, q)
    ensures Standing(before, read)[x] == Standing(after, read)[x] + if x == q then 1 else 0
  {
    if x == q {
      StandingOnce(before, read, q, c);
      ErasedList(before, after, q, c);
      StandingAbsent(after, read, q);
    } else {
      CountsOfOthers(before[c], q, x);
      StandingCount(before, after, read, x);
    }
  }

  lemma ErasedList(before: Lists<Id>, after: Lists<Id>, q: Id, c: Cell)
    requires IndexedAt(before, q, c) && after == Erased(before, c, q)
    ensures forall l :: q !in ListUnder(after, l)
  {
    EraseFirstTakesOne(before[c], q);
    forall d | d in after
      ensures q !in after[d]
    {
      assert Times(after[d], q) == 0;
    }
  }

  lemma ErasedGone(before: Lists<Id>, after: Lists<Id>, plan: seq<Lock>, dropped: seq<Id>, q: Id, c: Cell)
    requires Sector(c) in plan && IndexedAt(before, q, c) && after == Erased(before, c, q)
    requires AllGone(before, plan, dropped)
    ensures AllGone(after, plan, dropped + [q])
  {
    assert multiset(dropped + [q]) == multiset(dropped) + multiset{q};
    assert q !in dropped by {
      assert q in ListUnder(before, Sector(c));
    }
    EraseFirstTakesOne(before[c], q);
    forall x | x in dropped + [q]
      ensures Gone(after, plan, dropped + [q], x)
    {
      if x != q {
        assert Gone(before, plan, dropped, x);
        assert Times(after[c], x) <= Times(before[c], x);
      }
    }
  }

  lemma HostHeard(g: Grid, st: State, p: Id, f: Effect)
    requires Inv(g, st) && Prepared(g, st, p, f) && Nested(st.players[p])
    ensures var w := Worker(p, st.players[p]);
            w in st.players && HeardOk(Apply(st, p, f).lists, HostAfter(st.players[w], p, f))
  {
    HostOf(g, st.players, p);
    var h := st.players[Worker(p, st.players[p])];
    assert HeardOk(st.lists, h) && NestedWell(st.players, p);
    if f.list.EraseAt? && Gathering(h) {
      HostErased(g, st, p, f);
      HostLoses(st.lists, Apply(st, p, f).lists, h, p, f.list.c, HostAfter(h, p, f).inner);
    } else {
      StillHeard(st.lists, h, HostAfter(h, p, f).inner);
    }
  }

  lemma HostErased(g: Grid, st: State, p: Id, f: Effect)
    requires Inv(g, st) && Prepared(g, st, p, f) && Nested(st.players[p]) && f.list.EraseAt?
    ensures IndexedAt(st.lists, p, f.list.c) && f.list.c == st.players[p].cell
    ensures Apply(st, p, f).lists == Erased(st.lists, f.list.c, p)
  {
    assert RightPlace(st.lists, p, st.players[p]) && PlayerOk(g, st.players[p]);
    OwnPlace(g, st, p, f);
  }

  lemma HostLoses(before: Lists<Id>, after: Lists<Id>, h: Player, q: Id, c: Cell, inner: Option<Id>)
    requires Gathering(h) && HeardOk(before, h) && Rising(h.task.plan)
    requires h.task.stage.Reading? && h.task.stage.n < |h.task.plan| && h.task.plan[h.task.stage.n] == Sector(c)
    requires IndexedAt(before, q, c) && after == Erased(before, c, q)
    ensures HeardOk(after, h.(dropped := h.dropped + [q], inner := inner))
  {
    assert ReadSoFar(h)[h.task.stage.n] == Sector(c);
    ErasedStanding(before, after, ReadSoFar(h), q, c);
    ErasedGone(before, after, h.task.plan, h.dropped, q, c);
    CountedAfter(before, after, ReadSoFar(h), h.heard, h.todo, h.dropped, q);
    HeardWith(after, h, h.dropped + [q], inner);
  }

  lemma HeardWith(lists: Lists<Id>, h: Player, dropped: seq<Id>, inner: Option<Id>)
    requires Gathering(h) && h.task.stage.Reading? && AllGone(lists, h.task.plan, dropped)
    requires Counted(lists, ReadSoFar(h), h.heard, h.todo, dropped)
    ensures HeardOk(lists, h.(dropped := dropped, inner := inner))
  {
  }

  lemma CountedAfter(before: Lists<Id>, after: Lists<Id>, read: seq<Lock>, heard: seq<Id>, todo: seq<Id>,
                     dropped: seq<Id>, q: Id)
    requires Counted(before, read, heard, todo, dropped)
    requires Standing(before, read) == Standing(after, read) + multiset{q}
    ensures Counted(after, read, heard, todo, dropped + [q])
  {
    OneMore(Standing(before, read), Standing(after, read), dropped, q);
  }

  lemma OneMore(before: multiset<Id>, after: multiset<Id>, dropped: seq<Id>, q: Id)
    requires before == after + multiset{q}
    ensures before + multiset(dropped) == after + multiset(dropped + [q])
  {
    assert multiset(dropped + [q]) == multiset(dropped) + multiset{q};
  }

  lemma StillHeard(lists: Lists<Id>, l: Player, inner: Option<Id>)
    requires HeardOk(lists, l)
    ensures HeardOk(lists, l.(inner := inner))
  {
  }

  lemma OwnHeard(g: Grid, st: State, e: Event)
    requires Inv(g, st) && EffectOf(g, st, e).Some?
    ensures HeardOk(Apply(st, e.p, EffectOf(g, st, e).value).lists, EffectOf(g, st, e).value.next)
  {
    if !e.Advance? {
      FreshHeard(g, st, e);
    } else if Gathering(st.players[e.p]) {
      assert HeardOk(st.lists, st.players[e.p]) && PlayerOk(g, st.players[e.p]);
      ReadingHeard(st, e.p);
    } else {
      StillNotGathering(st, e.p);
    }
  }

  lemma FreshHeard(g: Grid, st: State, e: Event)
    requires !e.Advance? && EffectOf(g, st, e).Some?
    ensures HeardOk(Apply(st, e.p, EffectOf(g, st, e).value).lists, EffectOf(g, st, e).value.next)
  {
  }

  lemma StillNotGathering(st: State, p: Id)
    requires p in st.players && !Gathering(st.players[p]) && NextStep(st, p).Some?
    ensures !Gathering(NextStep(st, p).value.next)
  {
  }

  lemma ReadingHeard(st: State, p: Id)
    requires p in st.players && Gathering(st.players[p]) && StageOk(st.players[p].task) && NextStep(st, p).Some?
    requires HeardOk(st.lists, st.players[p])
    ensures NextStep(st, p).value.list == Keep && HeardOk(st.lists, NextStep(st, p).value.next)
  {
    var l := st.players[p];
    if l.task.stage.Working? {
      OpensHeard(st.lists, l, l.task.stage.n);
    } else if l.task.stage.Reading? {
      ReadsHeard(st.lists, l, l.task.stage.n);
    } else {
      assert l.task.plan[..0] == [];
    }
  }

  lemma OpensHeard(lists: Lists<Id>, l: Player, n: nat)
    requires Gathering(l) && l.task.stage == Working(n) && n < |l.task.plan| && HeardOk(lists, l)
    ensures HeardOk(lists, At(l, Reading(n)).(todo := ListUnder(lists, l.task.plan[n])))
  {
    var plan := l.task.plan;
    StandingMore(lists, plan, n);
    Together(multiset(l.heard), multiset(ListUnder(lists, plan[n])), Standing(lists, plan[..n]), multiset(l.dropped));
    assert multiset(l.todo) == multiset{};
  }

  lemma Together(heard: multiset<Id>, list: multiset<Id>, standing: multiset<Id>, dropped: multiset<Id>)
    requires heard + multiset{} == standing + dropped
    ensures heard + list == (standing + list) + dropped
  {
    assert heard + multiset{} == heard;
    forall x
      ensures (heard + list)[x] == ((standing + list) + dropped)[x]
    {
      assert heard[x] == (standing + dropped)[x];
    }
  }

  lemma ReadsHeard(lists: Lists<Id>, l: Player, n: nat)
    requires Gathering(l) && l.task.stage == Reading(n) && n < |l.task.plan| && HeardOk(lists, l)
    ensures HeardOk(lists, Read(l, n))
  {
    if l.todo != [] {
      Passed(l.heard, l.todo);
    }
  }

  lemma Passed(heard: seq<Id>, todo: seq<Id>)
    requires todo != []
    ensures multiset(heard + [todo[0]]) + multiset(todo[1..]) == multiset(heard) + multiset(todo)
  {
    assert todo == [todo[0]] + todo[1..];
  }

  lemma ApplyHeard(g: Grid, st: State, e: Event)
    requires Inv(g, st) && EffectOf(g, st, e).Some? && Prepared(g, st, e.p, EffectOf(g, st, e).value)
    ensures var st' := Apply(st, e.p, EffectOf(g, st, e).value);
            forall u :: u in st'.players ==> HeardOk(st'.lists, st'.players[u])
  {
    var p, f := e.p, EffectOf(g, st, e).value;
    SettleKeys(st.players, p, f);
    forall u | u in st.players
      ensures HeardOk(Apply(st, p, f).lists, Apply(st, p, f).players[u])
    {
      if u == p {
        OwnHeard(g, st, e);
      } else {
        SettleOthers(st.players, p, f, u);
        if u == Worker(p, st.players[p]) {
          HostHeard(g, st, p, f);
        } else {
          OthersHeard(g, st, p, f, u);
        }
      }
    }
  }

  // ---- the start of a handler inside an operation -----------------------------------------------

  // Neither of the two has to do with a handler yet.
  lemma DropFresh(g: Grid, st: State, p: Id, q: Id)
    requires Inv(g, st) && CanDrop(st, p, q)
    ensures p != q && !Nested(st.players[p]) && !Nested(st.players[q])
    ensures st.players[p].inner == None && st.players[q].inner == None
    ensures Hosting(st.players[p]) && HeldSet(Handled(st.players[q], p)) == HeldSet(st.players[q]) == {}
  {
    assert PlayerOk(g, st.players[p]) && PlayerOk(g, st.players[q]);
  }

  lemma DropInside(g: Grid, st: State, p: Id, q: Id, u: Id)
    requires Inv(g, st) && CanDrop(st, p, q) && u in st.players && u != p && st.players[u].inner.Some?
    ensures u != q && st.players[u].inner.value in st.players && st.players[u].inner.value !in {p, q}
    ensures Inside(st.players, st.players[u].inner.value, u)
  {
    DropFresh(g, st, p, q);
    assert Inside(st.players, st.players[u].inner.value, u);
  }

  lemma DropNestedWell(g: Grid, st: State, p: Id, q: Id, u: Id)
    requires Inv(g, st) && CanDrop(st, p, q) && u in st.players && Nested(st.players[u])
    ensures NestedWell(Dropped(st, p, q).players, u)
  {
    DropFresh(g, st, p, q);
    assert NestedWell(st.players, u);
    StillNestedWell(st, p, q, u);
  }

  lemma StillNestedWell(st: State, p: Id, q: Id, u: Id)
    requires CanDrop(st, p, q) && u in st.players && Nested(st.players[u]) && NestedWell(st.players, u)
    requires !Nested(st.players[p]) && !Nested(st.players[q])
    requires st.players[p].inner == None && st.players[q].inner == None
    ensures NestedWell(Dropped(st, p, q).players, u)
  {
    assert u !in {p, q} && st.players[u].task.under.value !in {p, q};
  }

  lemma DropInsideAfter(g: Grid, st: State, p: Id, q: Id, u: Id)
    requires Inv(g, st) && CanDrop(st, p, q) && u in st.players && Dropped(st, p, q).players[u].inner.Some?
    ensures Inside(Dropped(st, p, q).players, Dropped(st, p, q).players[u].inner.value, u)
  {
    DropFresh(g, st, p, q);
    if u != p {
      DropInside(g, st, p, q, u);
    }
  }

  lemma DropNestedAfter(g: Grid, st: State, p: Id, q: Id, u: Id)
    requires Inv(g, st) && CanDrop(st, p, q) && u in st.players && Nested(Dropped(st, p, q).players[u])
    ensures NestedWell(Dropped(st, p, q).players, u)
  {
    DropFresh(g, st, p, q);
    if u != q {
      DropNestedWell(g, st, p, q, u);
    }
  }

  lemma DropNest(g: Grid, st: State, p: Id, q: Id)
    requires Inv(g, st) && CanDrop(st, p, q)
    ensures NestOk(Dropped(st, p, q).players)
  {
    var players' := Dropped(st, p, q).players;
    assert players'.Keys == st.players.Keys;
    forall u | u in players' && players'[u].inner.Some?
      ensures Inside(players', players'[u].inner.value, u)
    {
      DropInsideAfter(g, st, p, q, u);
    }
    forall u | u in players' && Nested(players'[u])
      ensures NestedWell(players', u)
    {
      DropNestedAfter(g, st, p, q, u);
    }
    NestTogether(players');
  }

  lemma NestTogether(players: map<Id, Player>)
    requires forall p :: p in players && players[p].inner.Some? ==> Inside(players, players[p].inner.value, p)
    requires forall q :: q in players && Nested(players[q]) ==> NestedWell(players, q)
    ensures NestOk(players)
  {
  }

  lemma DropHolds(g: Grid, st: State, p: Id, q: Id)
    requires Inv(g, st) && CanDrop(st, p, q)
    ensures HeldSets(Dropped(st, p, q).players) == HeldSets(st.players)
  {
    var before, after := HeldSets(st.players), HeldSets(Dropped(st, p, q).players);
    forall u | u in before
      ensures u in after && after[u] == before[u]
    {
      DropHoldsOf(g, st, p, q, u);
    }
    SameHeldSets(before, after);
  }

  lemma SameHeldSets(before: map<Id, set<Lock>>, after: map<Id, set<Lock>>)
    requires before.Keys == after.Keys && forall u :: u in before ==> after[u] == before[u]
    ensures after == before
  {
  }

  lemma DropHoldsOf(g: Grid, st: State, p: Id, q: Id, u: Id)
    requires Inv(g, st) && CanDrop(st, p, q) && u in st.players
    ensures HeldBy(Dropped(st, p, q).players, u) == HeldBy(st.players, u)
  {
    DropFresh(g, st, p, q);
    if u == p || u == q {
      DropHoldsTwo(st, p, q);
    } else {
      if st.players[u].inner.Some? {
        DropInside(g, st, p, q, u);
      }
      DropHoldsOther(st, p, q, u);
    }
  }

  lemma DropHoldsTwo(st: State, p: Id, q: Id)
    requires CanDrop(st, p, q) && p != q && st.players[p].inner == None && st.players[q].inner == None
    requires Hosting(st.players[p]) && HeldSet(Handled(st.players[q], p)) == HeldSet(st.players[q]) == {}
    ensures HeldBy(Dropped(st, p, q).players, p) == HeldBy(st.players, p)
    ensures HeldBy(Dropped(st, p, q).players, q) == HeldBy(st.players, q)
  {
    var players' := Dropped(st, p, q).players;
    assert players'[q] == Handled(st.players[q], p);
    assert HeldSet(players'[p]) == HeldSet(st.players[p]);
  }

  lemma DropHoldsOther(st: State, p: Id, q: Id, u: Id)
    requires CanDrop(st, p, q) && u in st.players && u != p && u != q
    requires st.players[u].inner.Some? ==> st.players[u].inner.value !in {p, q}
    ensures HeldBy(Dropped(st, p, q).players, u) == HeldBy(st.players, u)
  {
  }

  lemma DropPlayers(g: Grid, st: State, p: Id, q: Id)
    requires Inv(g, st) && CanDrop(st, p, q)
    ensures forall u :: u in Dropped(st, p, q).players ==> PlayerOk(g, Dropped(st, p, q).players[u])
    ensures PlacesOk(g, st.lists, Dropped(st, p, q).players)
    ensures forall u :: u in Dropped(st, p, q).players ==> HeardOk(st.lists, Dropped(st, p, q).players[u])
  {
    var players' := Dropped(st, p, q).players;
    forall u | u in players'
      ensures PlayerOk(g, players'[u]) && RightPlace(st.lists, u, players'[u]) && HeardOk(st.lists, players'[u])
    {
      assert PlayerOk(g, st.players[u]) && RightPlace(st.lists, u, st.players[u]);
      StillHeard(st.lists, st.players[u], Some(q));
    }
  }

  lemma DropInv(g: Grid, st: State, p: Id, q: Id)
    requires Inv(g, st) && CanDrop(st, p, q)
    ensures Inv(g, Dropped(st, p, q))
  {
    DropNest(g, st, p, q);
    DropHolds(g, st, p, q);
    DropPlayers(g, st, p, q);
  }

  lemma StepInv(g: Grid, st: State, e: Event)
    requires Inv(g, st) && Next(g, st, e).Some?
    ensures Inv(g, Next(g, st, e).value)
  {
    if e.Drop? {
      DropInv(g, st, e.p, e.q);
    } else {
      var f := EffectOf(g, st, e).value;
      EffectsDisciplined(g, st, e);
      ApplyPlayers(g, st, e.p, f);
      ApplyNest(g, st, e.p, f);
      ApplyLocks(g, st, e.p, f);
      ApplyPlaces(g, st, e.p, f);
      ApplyHeard(g, st, e);
    }
  }


  // ---- whole runs ---------------------------------------------------------------------------------

  function Run(g: Grid, st: State, events: seq<Event>): Option<State>
    decreases |events|
  {
    if events == [] then Some(st)
    else match Next(g, st, events[0])
      case None => None
      case Some(st') => Run(g, st', events[1..])
  }

  lemma {:induction false} RunInv(g: Grid, st: State, events: seq<Event>)
    requires Inv(g, st) && Run(g, st, events).Some?
    ensures Inv(g, Run(g, st, events).value)
    decreases |events|
  {
    if events != [] {
      StepInv(g, st, events[0]);
      RunInv(g, Next(g, st, events[0]).value, events[1..]);
    }
  }

  // The states some interleaving of the workers leads to.
  ghost predicate Reachable(g: Grid, st: State) {
    exists start, events :: Init(g, start) && Run(g, start, events) == Some(st)
  }

  lemma ReachableInv(g: Grid, st: State)
    requires Reachable(g, st)
    ensures Inv(g, st)
  {
    var start, events :| Init(g, start) && Run(g, start, events) == Some(st);
    InitInv(g, start);
    RunInv(g, start, events);
  }

  // A player with nothing in work stands in the list of its sector exactly if
  // it has been placed; nobody ever stands in two lists.
  lemma IndexRightInEveryRun(g: Grid, st: State, p: Id)
    requires Reachable(g, st) && p in st.players
    ensures Absent(st.lists, p) || exists c :: IndexedAt(st.lists, p, c)
    ensures st.players[p].task == Idle ==>
              if st.players[p].indexed then IndexedAt(st.lists, p, st.players[p].cell) else Absent(st.lists, p)
  {
    ReachableInv(g, st);
    assert RightPlace(st.lists, p, st.players[p]);
  }

  // A player with nothing in work: each message starts its operation exactly if
  // the player's status is the right one and the sector is on the map; a move
  // must change the sector.
  lemma MayBegin(g: Grid, st: State, p: Id, target: Cell, key: Key, outcome: Outcome)
    requires p in st.players && st.players[p].task == Idle
    ensures Next(g, st, BeginMove(p, target)).Some? <==>
              st.players[p].indexed && g.Has(target) && target != st.players[p].cell
    ensures Next(g, st, BeginJoin(p, target)).Some? <==>
              !st.players[p].indexed && st.players[p].key.Some? && g.Has(target)
    ensures Next(g, st, BeginLogin(p, key, outcome)).Some? <==> !st.players[p].indexed && st.players[p].key == None
    ensures Next(g, st, BeginBroadcast(p)).Some? && Next(g, st, BeginLeave(p)).Some?
  {
  }

  // The last count of a placed player with nothing in work may fall only to a
  // broadcast that has just sent to it from the list it stands in, and to a
  // login that holds the key table and finds it under its key.
  lemma MayDrop(g: Grid, st: State, p: Id, q: Id)
    requires p in st.players && st.players[p].task.Busy? && st.players[p].inner == None
    requires q in st.players && st.players[q].task == Idle && st.players[q].indexed
    ensures Next(g, st, Drop(p, q)).Some? <==>
              var l := st.players[p];
              || (l.task.op.Broadcast? && l.task.stage.Reading? && l.heard != [] && l.heard[|l.heard| - 1] == q
                  && l.task.stage.n < |l.task.plan| && l.task.plan[l.task.stage.n] == Sector(st.players[q].cell))
              || (l.task.op.Login? && l.task.stage == Working(0) && l.task.op.key in st.keys
                  && st.keys[l.task.op.key] == q)
  {
  }

  // What a player will be when its operation is over: its sector, whether it is
  // placed, its key.
  datatype Prospect = Prospect(cell: Cell, indexed: bool, key: Option<Key>)

  function Goal(l: Player): Prospect {
    match l.task
    case Idle => Prospect(l.cell, l.indexed, l.key)
    case Busy(op, _, _, _) =>
      match op
      case Login(key, outcome) => Prospect(l.cell, l.indexed, if outcome == Completed then Some(key) else l.key)
      case Check(_) => Prospect(l.cell, false, None)
      case Leave(_) => Prospect(l.cell, false, None)
      case Delete(_) => Prospect(l.cell, false, None)
      case _ => Prospect(l.cell, l.indexed, l.key)
  }

  // The event starts an operation of p, or the handler of p.
  predicate Concerns(e: Event, p: Id) {
    match e
    case Advance(_) => false
    case Drop(_, q) => q == p
    case _ => e.p == p
  }

  // What the start of an operation aims at.
  function Aim(l: Player, e: Event): Prospect {
    match e
    case BeginMove(_, target) => Prospect(target, true, l.key)
    case BeginJoin(_, target) => Prospect(target, true, l.key)
    case BeginLogin(_, key, outcome) => Prospect(l.cell, false, if outcome == Completed then Some(key) else None)
    case BeginLeave(_) => Prospect(l.cell, false, None)
    case Drop(_, _) => Prospect(l.cell, false, None)
    case _ => Prospect(l.cell, l.indexed, l.key)
  }

  // Only the start of an operation of its own, or of its handler, decides what
  // a player will be; no other step of any worker does.
  lemma GoalKept(g: Grid, st: State, e: Event, p: Id)
    requires Next(g, st, e).Some? && p in st.players
    ensures p in Next(g, st, e).value.players
    ensures Goal(Next(g, st, e).value.players[p])
         == if Concerns(e, p) then Aim(st.players[p], e) else Goal(st.players[p])
  {
    if !e.Drop? {
      var f := EffectOf(g, st, e).value;
      SettleKeys(st.players, e.p, f);
      if p != e.p {
        SettleOthers(st.players, e.p, f, p);
      } else if e.Advance? {
        OwnGoalKept(st, p);
      }
    }
  }

  lemma OwnGoalKept(st: State, p: Id)
    requires p in st.players && NextStep(st, p).Some?
    ensures Goal(NextStep(st, p).value.next) == Goal(st.players[p])
  {
  }

  predicate NoneConcerns(events: seq<Event>, p: Id) {
    forall e :: e in events ==> !Concerns(e, p)
  }

  lemma {:induction false} RunGoalKept(g: Grid, st: State, events: seq<Event>, p: Id)
    requires Run(g, st, events).Some? && NoneConcerns(events, p) && p in st.players
    ensures p in Run(g, st, events).value.players
    ensures Goal(Run(g, st, events).value.players[p]) == Goal(st.players[p])
    decreases |events|
  {
    if events != [] {
      assert events[0] in events;
      GoalKept(g, st, events[0], p);
      RunGoalKept(g, Next(g, st, events[0]).value, events[1..], p);
    }
  }

  // Once an operation of a player has started, and whatever the workers do
  // then: when the player has nothing in work again, without a second start, it
  // is what that operation aims at. A move or first placing has left it once in
  // the list of the sector asked for, and in no other, so not in that of the
  // sector it came from; a disconnect has left it in none.
  lemma Arrives(g: Grid, st: State, e: Event, p: Id, begun: State, events: seq<Event>, end: State)
    requires Reachable(g, st) && p in st.players && Concerns(e, p) && Next(g, st, e) == Some(begun)
    requires Run(g, begun, events) == Some(end) && NoneConcerns(events, p)
    ensures p in end.players
    ensures end.players[p].task == Idle ==>
              && Prospect(end.players[p].cell, end.players[p].indexed, end.players[p].key) == Aim(st.players[p], e)
              && (e.BeginMove? || e.BeginJoin? ==> IndexedAt(end.lists, p, e.target))
              && (e.BeginMove? ==> p !in ListAt(end.lists, st.players[p].cell))
              && (e.BeginLeave? || e.Drop? || e.BeginLogin? ==> Absent(end.lists, p))
  {
    ReachableInv(g, st);
    StepInv(g, st, e);
    RunInv(g, begun, events);
    GoalKept(g, st, e, p);
    RunGoalKept(g, begun, events, p);
    if end.players[p].task == Idle {
      InPlace(g, end, p);
      if e.BeginMove? {
        MoveChanges(g, st, e, end.lists);
      }
    }
  }

  lemma InPlace(g: Grid, st: State, p: Id)
    requires Inv(g, st) && p in st.players && st.players[p].task == Idle
    ensures if st.players[p].indexed then IndexedAt(st.lists, p, st.players[p].cell) else Absent(st.lists, p)
  {
    assert RightPlace(st.lists, p, st.players[p]);
  }

  lemma MoveChanges(g: Grid, st: State, e: Event, lists: Lists<Id>)
    requires e.BeginMove? && Next(g, st, e).Some? && IndexedAt(lists, e.p, e.target)
    ensures e.p in st.players && e.p !in ListAt(lists, st.players[e.p].cell)
  {
  }

  // The locks are held and the player's list is searched next.
  predicate Searching(task: Task)
    requires task.Busy?
  {
    task.stage == Working(0) && (task.op.Move? || task.op.Check? || task.op.Leave?)
  }

  // The search of a move, a check or a leave finds the player every time, so
  // the branch that returns with both locks held is never taken.
  lemma NeverStuck(g: Grid, st: State, p: Id)
    requires Reachable(g, st) && p in st.players && st.players[p].task.Busy?
    ensures st.players[p].task.stage != Stuck
    ensures Searching(st.players[p].task) ==> Times(ListAt(st.lists, HomeList(st.players[p].task.op)), p) == 1
  {
    ReachableInv(g, st);
    assert RightPlace(st.lists, p, st.players[p]) && PlayerOk(g, st.players[p]);
  }

  // A placed player is out of the lists only between erase and append of its
  // move, while it holds the locks of both cells, or around the steps in which
  // it is placed for the first time or removed for good.
  lemma MissingOnlyUnderBothLocks(g: Grid, st: State, p: Id)
    requires Reachable(g, st) && p in st.players && st.players[p].indexed && Absent(st.lists, p)
    ensures st.players[p].task.Busy?
    ensures match st.players[p].task.op
            case Move(source, target) =>
              && Sector(source) in st.locks && st.locks[Sector(source)] == p
              && Sector(target) in st.locks && st.locks[Sector(target)] == p
            case Join(target) => !st.players[p].task.stage.Unlocking?
            case Leave(place) => st.players[p].task.stage.Unlocking?
            case Delete(_) => true
            case _ => false
  {
    ReachableInv(g, st);
    var l := st.players[p];
    assert RightPlace(st.lists, p, l) && PlayerOk(g, l);
    if l.task.Busy? && l.task.op.Move? {
      HeldIsLocked(st, p, Sector(l.task.op.source));
      HeldIsLocked(st, p, Sector(l.task.op.target));
    }
  }

  // Everyone a placed player's list entry speaks for has the status PLAYER.
  lemma ListedArePlaced(g: Grid, st: State, c: Cell, q: Id)
    requires Reachable(g, st) && c in st.lists && Times(st.lists[c], q) > 0
    ensures q in st.players && st.players[q].indexed
  {
    ReachableInv(g, st);
    assert q in st.players ==> RightPlace(st.lists, q, st.players[q]) && PlayerOk(g, st.players[q]);
  }

  // ---- what a broadcast reaches -------------------------------------------------------------------

  // The broadcast of p has sent to the last player of its last list, and no
  // handler runs inside it any more.
  predicate SentToAll(st: State, p: Id) {
    && p in st.players && st.players[p].task.Busy? && st.players[p].task.op.Broadcast?
    && st.players[p].task.stage.Reading? && st.players[p].task.stage.n + 1 == |st.players[p].task.plan|
    && st.players[p].todo == [] && st.players[p].inner == None
  }

  ghost predicate StandsNear(lists: Lists<Id>, q: Id, centre: Cell) {
    exists c :: c in lists && Near(c, centre) && Times(lists[c], q) > 0
  }

  // When a broadcast has sent to all, it has reached everyone exactly once who
  // stands, at this very moment, in a cell near the speaker, and also exactly
  // once everyone whose disconnect handler it ran itself, who stands in no cell
  // near the speaker any more; and nobody else. All although the lists were
  // read one by one while the other workers went on.
  lemma BroadcastReaches(g: Grid, st: State, p: Id, q: Id)
    requires Reachable(g, st) && SentToAll(st, p)
    ensures var l := st.players[p];
            && Times(l.heard, q) == (if q in l.dropped || StandsNear(st.lists, q, l.task.op.centre) then 1 else 0)
            && (q in l.dropped ==> !StandsNear(st.lists, q, l.task.op.centre))
  {
    ReachableInv(g, st);
    var l := st.players[p];
    assert HeardOk(st.lists, l) && PlayerOk(g, l);
    assert ReadSoFar(l) == l.task.plan;
    CountedTimes(st.lists, l.task.plan, l.heard, l.dropped, q);
    StandingIsNear(g, st, p, q);
    if q in l.dropped {
      assert Gone(st.lists, l.task.plan, l.dropped, q);
      StandingAbsent(st.lists, l.task.plan, q);
    }
  }

  lemma CountedTimes(lists: Lists<Id>, read: seq<Lock>, heard: seq<Id>, dropped: seq<Id>, q: Id)
    requires Counted(lists, read, heard, [], dropped)
    ensures Times(heard, q) == Standing(lists, read)[q] + Times(dropped, q)
  {
    assert (multiset(heard) + multiset([]))[q] == (Standing(lists, read) + multiset(dropped))[q];
  }

  lemma StandingIsNear(g: Grid, st: State, p: Id, q: Id)
    requires Inv(g, st) && SentToAll(st, p)
    ensures Standing(st.lists, st.players[p].task.plan)[q]
         == if StandsNear(st.lists, q, st.players[p].task.op.centre) then 1 else 0
  {
    var l := st.players[p];
    assert PlayerOk(g, l);
    if Absent(st.lists, q) {
      StandingAbsent(st.lists, l.task.plan, q);
    } else {
      assert q in st.players && RightPlace(st.lists, q, st.players[q]);
      StandingOnce(st.lists, l.task.plan, q, Where(st.players[q]).value);
    }
  }

  // It reached exactly those who stand near now, once each.
  ghost predicate Snapshot(st: State, p: Id)
    requires SentToAll(st, p)
  {
    forall q :: Times(st.players[p].heard, q)
             == if StandsNear(st.lists, q, st.players[p].task.op.centre) then 1 else 0
  }

  // So what was sent is a snapshot of one moment exactly if the broadcast ran
  // nobody's disconnect handler.
  lemma SnapshotExactly(g: Grid, st: State, p: Id)
    requires Reachable(g, st) && SentToAll(st, p)
    ensures Snapshot(st, p) <==> st.players[p].dropped == []
  {
    var l := st.players[p];
    forall q
      ensures Times(l.heard, q) == (if q in l.dropped || StandsNear(st.lists, q, l.task.op.centre) then 1 else 0)
      ensures q in l.dropped ==> !StandsNear(st.lists, q, l.task.op.centre)
    {
      BroadcastReaches(g, st, p, q);
    }
    if l.dropped != [] {
      assert l.dropped[0] in l.dropped;
      assert Times(l.heard, l.dropped[0]) == 1;
    }
  }

  // Sending, not yet giving back locks.
  predicate Speaking(l: Player) {
    l.task.Busy? && l.task.op.Broadcast? && !l.task.stage.Unlocking?
  }

  lemma OthersLeaveIt(g: Grid, st: State, e: Event, p: Id)
    requires p in st.players && Next(g, st, e).Some? && e.p != p && !Concerns(e, p)
    ensures p in Next(g, st, e).value.players
    ensures Next(g, st, e).value.players[p].task == st.players[p].task
    ensures Next(g, st, e).value.players[p].heard == st.players[p].heard
  {
    if !e.Drop? {
      SettleKeys(st.players, e.p, EffectOf(g, st, e).value);
      SettleOthers(st.players, e.p, EffectOf(g, st, e).value, p);
    }
  }

  // A broadcast stops sending only when it has sent to all.
  lemma StopsWhenSent(g: Grid, st: State, e: Event, p: Id)
    requires Inv(g, st) && p in st.players && Speaking(st.players[p]) && Next(g, st, e).Some? && !Concerns(e, p)
    requires p in Next(g, st, e).value.players && !Speaking(Next(g, st, e).value.players[p])
    ensures SentToAll(st, p) && Next(g, st, e).value.players[p].heard == st.players[p].heard
  {
    if e.p != p {
      OthersLeaveIt(g, st, e, p);
    } else if e.Advance? {
      assert PlayerOk(g, st.players[p]);
      SettleKeys(st.players, p, NextStep(st, p).value);
      OwnStops(st, p);
    }
  }

  lemma OwnStops(st: State, p: Id)
    requires p in st.players && NextStep(st, p).Some? && Speaking(st.players[p]) && StageOk(st.players[p].task)
    requires !Speaking(NextStep(st, p).value.next)
    ensures SentToAll(st, p) && NextStep(st, p).value.next.heard == st.players[p].heard
  {
  }

  // Others change neither what it is about nor, when it has stopped, whom it
  // reached.
  lemma StaysAsItIs(g: Grid, st: State, e: Event, p: Id)
    requires Inv(g, st) && p in st.players && !Concerns(e, p) && Next(g, st, e).Some?
    ensures p in Next(g, st, e).value.players
    ensures var l, l' := st.players[p], Next(g, st, e).value.players[p];
            && (Speaking(l) && Speaking(l') ==> l'.task.op == l.task.op)
            && (!Speaking(l) ==> !Speaking(l') && l'.heard == l.heard)
  {
    if e.p != p {
      OthersLeaveIt(g, st, e, p);
    } else if e.Advance? {
      assert PlayerOk(g, st.players[p]);
      SettleKeys(st.players, p, NextStep(st, p).value);
      OwnStays(st, p);
    }
  }

  lemma OwnStays(st: State, p: Id)
    requires p in st.players && NextStep(st, p).Some? && StageOk(st.players[p].task)
    ensures var l, l' := st.players[p], NextStep(st, p).value.next;
            && (Speaking(l) && Speaking(l') ==> l'.task.op == l.task.op)
            && (!Speaking(l) ==> !Speaking(l') && l'.heard == l.heard)
  {
  }

  lemma {:induction false} SilentStays(g: Grid, st: State, events: seq<Event>, p: Id)
    requires Inv(g, st) && p in st.players && !Speaking(st.players[p])
    requires NoneConcerns(events, p) && Run(g, st, events).Some?
    ensures var end := Run(g, st, events).value;
            p in end.players && !Speaking(end.players[p]) && end.players[p].heard == st.players[p].heard
    decreases |events|
  {
    if events != [] {
      assert events[0] in events;
      StepInv(g, st, events[0]);
      StaysAsItIs(g, st, events[0], p);
      SilentStays(g, Next(g, st, events[0]).value, events[1..], p);
    }
  }

  // So whomever a broadcast has reached when it is over, however long that
  // takes, it had reached at a moment of the run at which it had sent to all.
  lemma {:induction false} HadItsMoment(g: Grid, st: State, events: seq<Event>, p: Id) returns (n: nat, mid: State)
    requires Inv(g, st) && p in st.players && Speaking(st.players[p])
    requires NoneConcerns(events, p) && Run(g, st, events).Some?
    requires p in Run(g, st, events).value.players && !Speaking(Run(g, st, events).value.players[p])
    ensures n <= |events| && Run(g, st, events[..n]) == Some(mid) && SentToAll(mid, p)
    ensures mid.players[p].heard == Run(g, st, events).value.players[p].heard
    ensures mid.players[p].task.op == st.players[p].task.op
    decreases |events|
  {
    var e, next := events[0], Next(g, st, events[0]).value;
    assert e in events;
    StepInv(g, st, e);
    StaysAsItIs(g, st, e, p);
    if Speaking(next.players[p]) {
      n, mid := HadItsMoment(g, next, events[1..], p);
      RunBegins(g, st, events, next, n);
      n := n + 1;
    } else {
      StopsWhenSent(g, st, e, p);
      SilentStays(g, next, events[1..], p);
      n, mid := 0, st;
    }
  }

  lemma RunBegins(g: Grid, st: State, events: seq<Event>, next: State, n: nat)
    requires n < |events| && Next(g, st, events[0]) == Some(next)
    ensures Run(g, st, events[..n + 1]) == Run(g, next, events[1..][..n])
  {
    assert events[..n + 1][1..] == events[1..][..n];
  }

  // Nobody is on its way between two cells of which one is near.
  lemma NobodyInTransitNear(g: Grid, st: State, p: Id, q: Id)
    requires Reachable(g, st) && SentToAll(st, p) && q in st.players && Absent(st.lists, q)
    requires st.players[q].task.Busy? && st.players[q].task.op.Move?
    ensures !Near(st.players[q].task.op.source, st.players[p].task.op.centre)
    ensures !Near(st.players[q].task.op.target, st.players[p].task.op.centre)
  {
    ReachableInv(g, st);
    MoverInTransit(g, st.lists, q, st.players[q]);
    MoverKeepsAway(g, st, p, q, st.players[q].task.op.source);
    MoverKeepsAway(g, st, p, q, st.players[q].task.op.target);
  }

  lemma MoverInTransit(g: Grid, lists: Lists<Id>, q: Id, l: Player)
    requires PlayerOk(g, l) && RightPlace(lists, q, l) && Absent(lists, q) && l.task.Busy? && l.task.op.Move?
    ensures Sector(l.task.op.source) in HeldSet(l) && Sector(l.task.op.target) in HeldSet(l) && !Nested(l)
  {
  }

  lemma MoverKeepsAway(g: Grid, st: State, p: Id, q: Id, c: Cell)
    requires Inv(g, st) && SentToAll(st, p) && p != q && q in st.players && !Nested(st.players[q])
    requires Sector(c) in HeldSet(st.players[q]) && g.Has(c)
    ensures !Near(c, st.players[p].task.op.centre)
  {
    HeldIsLocked(st, q, Sector(c));
    if Near(c, st.players[p].task.op.centre) {
      assert PlayerOk(g, st.players[p]) && Sector(c) in st.players[p].task.plan;
      SpeakerHolds(g, st, p, Sector(c));
    }
  }
}
