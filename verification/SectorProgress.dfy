// Which worker of the multi-threaded chat server waits for which: handlers that
// run inside other operations take the cell locks and the lock of the key table
// in both orders, so workers can wait for one another for ever. When they do,
// when they cannot, and that every operation under way comes to its end.
module SectorProgress {
  import opened SectorGrid
  import opened SectorLocks
  import opened Wrappers

  // ---- who waits for whom ---------------------------------------------------------------------------

  // The lock an operation or a handler takes next.
  function Waiting(l: Player): Option<Lock> {
    if l.task.Busy? && l.task.stage.Locking? && l.task.stage.n < |l.task.plan| then Some(l.task.plan[l.task.stage.n])
    else None
  }

  // A worker is named after the player whose message it has in work.
  predicate AtWork(st: State, w: Id) {
    w in st.players && st.players[w].task.Busy? && !Nested(st.players[w])
  }

  // Whose step it takes next: that of the handler, if one runs inside.
  function Active(st: State, w: Id): Id
    requires w in st.players
  {
    if st.players[w].inner.Some? then st.players[w].inner.value else w
  }

  function Wanted(st: State, w: Id): Option<Lock> {
    if AtWork(st, w) && Active(st, w) in st.players then Waiting(st.players[Active(st, w)]) else None
  }

  // It waits for a lock that another worker holds.
  predicate Blocked(st: State, w: Id) {
    Wanted(st, w).Some? && Wanted(st, w).value in st.locks && st.locks[Wanted(st, w).value] != w
  }

  function Blocker(st: State, w: Id): Id
    requires Blocked(st, w)
  {
    st.locks[Wanted(st, w).value]
  }

  lemma ActiveIs(g: Grid, st: State, w: Id)
    requires Inv(g, st) && AtWork(st, w)
    ensures var a := Active(st, w);
            && a in st.players && PlayerOk(g, st.players[a]) && st.players[a].task.Busy? && st.players[a].inner == None
            && Worker(a, st.players[a]) == w
    ensures st.players[w].inner.Some? ==> Hosting(st.players[w]) && NestedWell(st.players, Active(st, w))
  {
    assert PlayerOk(g, st.players[w]);
    if st.players[w].inner.Some? {
      assert Inside(st.players, st.players[w].inner.value, w);
      assert PlayerOk(g, st.players[st.players[w].inner.value]);
    }
  }

  lemma StepsUnlessWaiting(g: Grid, st: State, a: Id)
    requires a in st.players && PlayerOk(g, st.players[a]) && st.players[a].task.Busy? && st.players[a].inner == None
    ensures NextStep(st, a).Some? <==>
              (Waiting(st.players[a]).Some? ==> Free(st, Waiting(st.players[a]).value, Worker(a, st.players[a])))
  {
  }

  // Waiting is the only thing that keeps a worker from its next step.
  lemma GoesOnUnlessBlocked(g: Grid, st: State, w: Id)
    requires Inv(g, st) && AtWork(st, w)
    ensures Next(g, st, Advance(Active(st, w))).Some? <==> !Blocked(st, w)
  {
    ActiveIs(g, st, w);
    StepsUnlessWaiting(g, st, Active(st, w));
  }

  lemma BlockerIs(g: Grid, st: State, w: Id)
    requires Inv(g, st) && Blocked(st, w)
    ensures AtWork(st, Blocker(st, w)) && Blocker(st, w) != w
    ensures Wanted(st, w).value in HeldBy(st.players, Blocker(st, w)) && OnMap(g, Wanted(st, w).value)
  {
    ActiveIs(g, st, w);
    var b := Blocker(st, w);
    assert b in HeldSets(st.players);
    assert PlayerOk(g, st.players[b]);
  }

  // A handler inside a broadcast waits for the key table.
  predicate HandlerAtKeys(st: State, w: Id) {
    AtWork(st, w) && st.players[w].task.op.Broadcast? && st.players[w].inner.Some? && Wanted(st, w) == Some(Keys)
  }

  // A handler inside a login waits for a cell.
  predicate HandlerAtCell(st: State, w: Id) {
    AtWork(st, w) && st.players[w].task.op.Login? && st.players[w].inner.Some?
    && Wanted(st, w).Some? && Wanted(st, w).value.Sector?
  }

  // Whoever waits holds only locks of lower cells, but for the two.
  lemma WaitsAbove(g: Grid, st: State, w: Id, l: Lock)
    requires Inv(g, st) && Blocked(st, w) && l in HeldBy(st.players, w)
    ensures var next := Wanted(st, w).value;
            || (l.Sector? && next.Sector? && Lower(l.cell, next.cell))
            || (l.Sector? && HandlerAtKeys(st, w))
            || (l == Keys && HandlerAtCell(st, w))
  {
    ActiveIs(g, st, w);
    if st.players[w].inner == None {
      OwnWait(g, st.players[w], l);
    } else {
      InnerWait(g, st, w, l);
    }
  }

  lemma OwnWait(g: Grid, l: Player, c: Lock)
    requires PlayerOk(g, l) && Waiting(l).Some? && c in HeldSet(l)
    ensures c.Sector? && Waiting(l).value.Sector? && Lower(c.cell, Waiting(l).value.cell)
  {
    var plan, n := l.task.plan, l.task.stage.n;
    var i :| 0 <= i < n && plan[..n][i] == c;
    assert plan[i] == c;
  }

  // What a handler inside holds when it waits is nothing; what it waits for is
  // not held by the operation around it.
  lemma InnerWait(g: Grid, st: State, w: Id, l: Lock)
    requires Inv(g, st) && Blocked(st, w) && l in HeldBy(st.players, w) && st.players[w].inner.Some?
    ensures (l.Sector? && HandlerAtKeys(st, w)) || (l == Keys && HandlerAtCell(st, w))
  {
    var q := st.players[w].inner.value;
    ActiveIs(g, st, w);
    NotItsOwn(st, w);
    HandlerWaits(g, st.players[q], st.players[w]);
    InnerHolds(st, w, l);
    HostLocks(g, st.players[w], st.players[q].cell);
    InnerWaitIs(st, w, q, l);
  }

  lemma InnerWaitIs(st: State, w: Id, q: Id, l: Lock)
    requires AtWork(st, w) && Hosting(st.players[w]) && st.players[w].inner == Some(q) && q in st.players
    requires Wanted(st, w).Some? && l in HeldSet(st.players[w]) && Wanted(st, w).value !in HeldSet(st.players[w])
    requires Wanted(st, w).value in {Keys, Sector(st.players[q].cell)}
    requires st.players[w].task.op.Login? ==> HeldSet(st.players[w]) == {Keys}
    requires st.players[w].task.op.Broadcast? ==>
               && Sector(st.players[q].cell) in HeldSet(st.players[w])
               && forall c :: c in HeldSet(st.players[w]) ==> c.Sector?
    ensures (l.Sector? && HandlerAtKeys(st, w)) || (l == Keys && HandlerAtCell(st, w))
  {
  }

  lemma InnerHolds(st: State, w: Id, l: Lock)
    requires w in st.players && l in HeldBy(st.players, w) && st.players[w].inner.Some?
    requires st.players[w].inner.value in st.players && HeldSet(st.players[st.players[w].inner.value]) == {}
    ensures l in HeldSet(st.players[w]) && HeldBy(st.players, w) == HeldSet(st.players[w])
  {
  }

  lemma HandlerWaits(g: Grid, l: Player, h: Player)
    requires PlayerOk(g, l) && Nested(l) && Waiting(l).Some? && HostFits(h, l)
    ensures HeldSet(l) == {} && (Waiting(l) == Some(Keys) || Waiting(l) == Some(Sector(l.cell)))
  {
    assert l.task.stage == Locking(0);
  }

  lemma HostLocks(g: Grid, h: Player, c: Cell)
    requires PlayerOk(g, h) && Hosting(h)
    ensures h.task.op.Login? ==> HeldSet(h) == {Keys}
    ensures h.task.op.Broadcast? ==> forall l :: l in HeldSet(h) ==> l.Sector?
    ensures h.task.op.Broadcast? && h.task.stage.n < |h.task.plan| && h.task.plan[h.task.stage.n] == Sector(c) ==>
              Sector(c) in HeldSet(h)
  {
    assert Held(h) == h.task.plan;
  }

  lemma NotItsOwn(st: State, w: Id)
    requires LocksOk(st) && Blocked(st, w)
    ensures Wanted(st, w).value !in HeldBy(st.players, w)
  {
    if Wanted(st, w).value in HeldBy(st.players, w) {
      HeldIsLocked(st, w, Wanted(st, w).value);
    }
  }

  // ---- knots --------------------------------------------------------------------------------------------

  // Workers that wait for one another.
  ghost predicate Knot(st: State, workers: set<Id>) {
    workers != {} && forall w :: w in workers ==> Blocked(st, w) && Blocker(st, w) in workers
  }

  // The holder of what a worker of the knot waits for waits for something
  // higher, but for the two.
  lemma NextHolder(g: Grid, st: State, workers: set<Id>, w: Id, l: Lock) returns (u: Id, next: Lock)
    requires Inv(g, st) && Knot(st, workers) && w in workers && Wanted(st, w) == Some(l)
    ensures Blocked(st, w) && u == Blocker(st, w)
    ensures u in workers && Wanted(st, u) == Some(next) && OnMap(g, next)
    ensures (l.Sector? && next.Sector? && Lower(l.cell, next.cell))
            || (l.Sector? && next == Keys && HandlerAtKeys(st, u))
            || (l == Keys && next.Sector? && HandlerAtCell(st, u))
  {
    BlockerIs(g, st, w);
    u := Blocker(st, w);
    next := Wanted(st, u).value;
    BlockerIs(g, st, u);
    WaitsAbove(g, st, u, l);
  }

  // Follow the holders: the cells get higher until a handler inside a
  // broadcast is met, which waits for the key table.
  lemma {:induction false} FindAtKeys(g: Grid, st: State, workers: set<Id>, w: Id, l: Lock) returns (u: Id)
    requires Inv(g, st) && Knot(st, workers) && w in workers && Wanted(st, w) == Some(l) && OnMap(g, l)
    ensures u in workers && HandlerAtKeys(st, u)
    decreases l == Keys, if l == Keys then 0 else g.width - l.cell.x, if l == Keys then 0 else g.height - l.cell.y
  {
    var holder, next := NextHolder(g, st, workers, w, l);
    if HandlerAtKeys(st, holder) {
      u := holder;
    } else {
      u := FindAtKeys(g, st, workers, holder, next);
    }
  }

  // And on: whoever holds the key table is a login whose handler waits for a
  // cell.
  lemma FindAtCell(g: Grid, st: State, workers: set<Id>, w: Id) returns (u: Id)
    requires Inv(g, st) && Knot(st, workers) && w in workers && Wanted(st, w) == Some(Keys)
    ensures u in workers && HandlerAtCell(st, u) && Blocker(st, w) == u
  {
    var next;
    u, next := NextHolder(g, st, workers, w, Keys);
  }

  // Workers that wait for one another are only possible with both: a handler
  // inside a broadcast that waits for the key table, and a handler inside a
  // login that waits for a cell.
  lemma KnotHasBoth(g: Grid, st: State, workers: set<Id>)
    requires Reachable(g, st) && Knot(st, workers)
    ensures exists u :: u in workers && HandlerAtKeys(st, u)
    ensures exists v :: v in workers && HandlerAtCell(st, v)
  {
    ReachableInv(g, st);
    var w :| w in workers;
    BlockerIs(g, st, w);
    var u := FindAtKeys(g, st, workers, w, Wanted(st, w).value);
    var v := FindAtCell(g, st, workers, u);
  }

  // Whom an event concerns.
  predicate Touches(st: State, e: Event, u: Id) {
    u == e.p || (e.Drop? && u == e.q) || (e.p in st.players && u == Worker(e.p, st.players[e.p]))
  }

  predicate Same(st: State, st': State, u: Id) {
    u in st.players && u in st'.players && st'.players[u] == st.players[u]
  }

  lemma BystanderStays(g: Grid, st: State, e: Event, u: Id)
    requires Next(g, st, e).Some? && u in st.players && !Touches(st, e, u)
    ensures Same(st, Next(g, st, e).value, u)
  {
    if !e.Drop? {
      SettleOthers(st.players, e.p, EffectOf(g, st, e).value, u);
    }
  }

  // A blocked worker cannot take a step, nor can one start a handler inside it
  // or for it.
  lemma NotTheirs(g: Grid, st: State, e: Event, w: Id)
    requires Inv(g, st) && Next(g, st, e).Some? && Blocked(st, w)
    ensures !Touches(st, e, w) && !Touches(st, e, Active(st, w))
  {
    match e
    case Drop(p, q) => NotDropping(g, st, p, q, w);
    case Advance(p) => NotAdvancing(g, st, p, w);
    case _ => NotBeginning(g, st, e, w);
  }

  lemma NotBeginning(g: Grid, st: State, e: Event, w: Id)
    requires EffectOf(g, st, e).Some? && !e.Drop? && !e.Advance? && Blocked(st, w)
    ensures !Touches(st, e, w) && !Touches(st, e, Active(st, w))
  {
    BeginsIdle(g, st, e);
    IdleNotBlocked(st, e.p, w);
  }

  lemma IdleNotBlocked(st: State, p: Id, w: Id)
    requires p in st.players && st.players[p].task == Idle && Blocked(st, w)
    ensures p != w && p != Active(st, w)
  {
  }

  lemma BeginsIdle(g: Grid, st: State, e: Event)
    requires !e.Drop? && !e.Advance? && EffectOf(g, st, e).Some?
    ensures e.p in st.players && st.players[e.p].task == Idle && Worker(e.p, st.players[e.p]) == e.p
  {
  }

  lemma NotDropping(g: Grid, st: State, p: Id, q: Id, w: Id)
    requires Inv(g, st) && CanDrop(st, p, q) && Blocked(st, w)
    ensures !Touches(st, Drop(p, q), w) && !Touches(st, Drop(p, q), Active(st, w))
  {
    ActiveIs(g, st, w);
    DropFresh(g, st, p, q);
    HostNotBlocked(st, p, w);
  }

  lemma HostNotBlocked(st: State, p: Id, w: Id)
    requires p in st.players && Hosting(st.players[p]) && st.players[p].inner == None && Blocked(st, w)
    requires Active(st, w) in st.players && Worker(Active(st, w), st.players[Active(st, w)]) == w
    ensures p != w && p != Active(st, w) && Worker(p, st.players[p]) == p
  {
  }

  lemma NotAdvancing(g: Grid, st: State, p: Id, w: Id)
    requires Inv(g, st) && p in st.players && NextStep(st, p).Some? && Blocked(st, w)
    ensures !Touches(st, Advance(p), w) && !Touches(st, Advance(p), Active(st, w))
  {
    ActiveIs(g, st, w);
    NotActive(st, p, w);
    if Nested(st.players[p]) {
      HostOf(g, st.players, p);
    }
  }

  lemma NotActive(st: State, p: Id, w: Id)
    requires p in st.players && NextStep(st, p).Some? && Blocked(st, w) && Active(st, w) in st.players
    requires Worker(Active(st, w), st.players[Active(st, w)]) == w
    ensures p != w && p != Active(st, w)
  {
  }

  lemma KnotStill(g: Grid, st: State, e: Event, workers: set<Id>, w: Id)
    requires Inv(g, st) && Next(g, st, e).Some? && Knot(st, workers) && w in workers
    ensures w in st.players && Same(st, Next(g, st, e).value, w) && Same(st, Next(g, st, e).value, Active(st, w))
  {
    ActiveIs(g, st, w);
    NotTheirs(g, st, e, w);
    BystanderStays(g, st, e, w);
    BystanderStays(g, st, e, Active(st, w));
  }

  lemma KnotHolds(g: Grid, st: State, e: Event, workers: set<Id>, w: Id, l: Lock)
    requires Inv(g, st) && Next(g, st, e).Some? && Knot(st, workers) && w in workers && l in HeldBy(st.players, w)
    ensures l in Next(g, st, e).value.locks && Next(g, st, e).value.locks[l] == w
  {
    StepInv(g, st, e);
    KnotStill(g, st, e, workers, w);
    HeldIsLocked(Next(g, st, e).value, w, l);
  }

  lemma StillBlocked(g: Grid, st: State, e: Event, workers: set<Id>, w: Id)
    requires Inv(g, st) && Next(g, st, e).Some? && Knot(st, workers) && w in workers
    ensures Blocked(Next(g, st, e).value, w) && Blocker(Next(g, st, e).value, w) == Blocker(st, w)
  {
    KnotStill(g, st, e, workers, w);
    BlockerIs(g, st, w);
    KnotHolds(g, st, e, workers, Blocker(st, w), Wanted(st, w).value);
    SameWait(st, Next(g, st, e).value, w);
  }

  lemma SameWait(st: State, st': State, w: Id)
    requires Blocked(st, w) && Same(st, st', w) && Same(st, st', Active(st, w))
    requires Wanted(st, w).value in st'.locks && st'.locks[Wanted(st, w).value] == Blocker(st, w)
    ensures Blocked(st', w) && Blocker(st', w) == Blocker(st, w)
  {
  }

  lemma KnotStays(g: Grid, st: State, e: Event, workers: set<Id>)
    requires Inv(g, st) && Next(g, st, e).Some? && Knot(st, workers)
    ensures Knot(Next(g, st, e).value, workers)
  {
    forall w | w in workers
      ensures Blocked(Next(g, st, e).value, w) && Blocker(Next(g, st, e).value, w) in workers
    {
      StillBlocked(g, st, e, workers, w);
    }
  }

  // Once they do, they do so for ever.
  lemma {:induction false} KnotForEver(g: Grid, st: State, events: seq<Event>, workers: set<Id>)
    requires Inv(g, st) && Run(g, st, events).Some? && Knot(st, workers)
    ensures Knot(Run(g, st, events).value, workers)
    ensures forall w :: w in workers ==> Same(st, Run(g, st, events).value, w)
    decreases |events|
  {
    forall w | w in workers
      ensures w in st.players
    {
      assert Blocked(st, w);
    }
    if events != [] {
      var st' := Next(g, st, events[0]).value;
      StepInv(g, st, events[0]);
      KnotStays(g, st, events[0], workers);
      KnotForEver(g, st', events[1..], workers);
      forall w | w in workers
        ensures Same(st, st', w)
      {
        KnotStill(g, st, events[0], workers, w);
      }
    }
  }

  // ---- progress -------------------------------------------------------------------------------------------

  // The worker can go on, or the one it waits for can, and so on, n times.
  ghost predicate ServedWithin(st: State, w: Id, n: nat)
    decreases n
  {
    !Blocked(st, w) || (n > 0 && ServedWithin(st, Blocker(st, w), n - 1))
  }

  ghost predicate Served(st: State, w: Id) {
    exists n :: ServedWithin(st, w, n)
  }

  // Everyone is served exactly if no workers wait for one another.
  lemma ServedExactlyWithoutKnot(g: Grid, st: State)
    requires Reachable(g, st)
    ensures (forall w :: AtWork(st, w) ==> Served(st, w)) <==> forall workers: set<Id> :: !Knot(st, workers)
  {
    ReachableInv(g, st);
    if forall workers: set<Id> :: !Knot(st, workers) {
      forall w | AtWork(st, w)
        ensures Served(st, w)
      {
        LeftIsKnot(g, st, w);
      }
    } else {
      var workers: set<Id> :| Knot(st, workers);
      NobodyServed(st, workers);
    }
  }

  // Those who are never served wait for one another.
  lemma LeftIsKnot(g: Grid, st: State, w: Id)
    requires Inv(g, st) && AtWork(st, w)
    ensures Served(st, w) || exists workers: set<Id> :: Knot(st, workers)
  {
    var left := set u | u in st.players && AtWork(st, u) && !Served(st, u);
    forall u | u in left
      ensures Blocked(st, u) && Blocker(st, u) in left
    {
      LeftToo(g, st, u);
    }
    assert w !in left ==> Served(st, w);
    assert left != {} ==> Knot(st, left);
  }

  lemma NobodyServed(st: State, workers: set<Id>)
    requires Knot(st, workers)
    ensures exists w :: AtWork(st, w) && !Served(st, w)
  {
    var w :| w in workers;
    forall n: nat
      ensures !ServedWithin(st, w, n)
    {
      NotServedInKnot(st, workers, w, n);
    }
    assert Blocked(st, w) && !Served(st, w);
  }

  lemma LeftToo(g: Grid, st: State, w: Id)
    requires Inv(g, st) && AtWork(st, w) && !Served(st, w)
    ensures Blocked(st, w) && AtWork(st, Blocker(st, w)) && !Served(st, Blocker(st, w))
  {
    NotServed(st, w);
    BlockerIs(g, st, w);
  }

  lemma NotServed(st: State, w: Id)
    requires !Served(st, w)
    ensures Blocked(st, w) && !Served(st, Blocker(st, w))
  {
    assert !ServedWithin(st, w, 0);
    forall n: nat
      ensures !ServedWithin(st, Blocker(st, w), n)
    {
      assert !ServedWithin(st, w, n + 1);
    }
  }

  lemma {:induction false} NotServedInKnot(st: State, workers: set<Id>, w: Id, n: nat)
    requires Knot(st, workers) && w in workers
    ensures !ServedWithin(st, w, n)
    decreases n
  {
    if n > 0 {
      NotServedInKnot(st, workers, Blocker(st, w), n - 1);
    }
  }

  // Each worker of the path waits for the next.
  ghost predicate Chain(st: State, path: seq<Id>) {
    path != [] && forall i :: 0 <= i < |path| - 1 ==> Blocked(st, path[i]) && Blocker(st, path[i]) == path[i + 1]
  }

  ghost predicate ChainTo(st: State, path: seq<Id>, v: Id, u: Id) {
    Chain(st, path) && path[0] == v && path[|path| - 1] == u
  }

  // u is v, or v waits for it, or for one that waits for it, and so on.
  ghost predicate WaitsBehind(st: State, v: Id, u: Id) {
    exists path :: ChainTo(st, path, v, u)
  }

  // Whoever holds the key table is a login whose handler waits for a cell, and
  // the holder of that cell, or the one it waits for in turn, is a broadcast
  // whose handler waits for the key table.
  ghost predicate CrossedAtKeys(st: State) {
    Keys in st.locks && HandlerAtCell(st, st.locks[Keys])
    && exists u :: WaitsBehind(st, st.locks[Keys], u) && HandlerAtKeys(st, u)
  }

  // In a knot every path along the holders comes to such a broadcast.
  lemma {:induction false} PathToKeys(g: Grid, st: State, workers: set<Id>, w: Id, l: Lock)
    returns (u: Id, path: seq<Id>)
    requires Inv(g, st) && Knot(st, workers) && w in workers && Wanted(st, w) == Some(l) && OnMap(g, l)
    ensures HandlerAtKeys(st, u) && ChainTo(st, path, w, u)
    decreases l == Keys, if l == Keys then 0 else g.width - l.cell.x, if l == Keys then 0 else g.height - l.cell.y
  {
    var holder, next := NextHolder(g, st, workers, w, l);
    if HandlerAtKeys(st, holder) {
      u, path := holder, [holder];
      ChainOne(st, holder);
    } else {
      u, path := PathToKeys(g, st, workers, holder, next);
    }
    ChainMore(st, w, path, u);
    path := [w] + path;
  }

  lemma ChainOne(st: State, w: Id)
    ensures ChainTo(st, [w], w, w)
  {
  }

  lemma ChainMore(st: State, w: Id, path: seq<Id>, u: Id)
    requires Blocked(st, w) && ChainTo(st, path, Blocker(st, w), u)
    ensures ChainTo(st, [w] + path, w, u)
  {
  }

  function Members(path: seq<Id>): set<Id> {
    set w | w in path
  }

  // A path that closes is a knot.
  lemma ClosedIsKnot(st: State, path: seq<Id>, u: Id)
    requires Chain(st, path) && path[|path| - 1] == u && Blocked(st, u) && Blocker(st, u) == path[0]
    ensures Knot(st, Members(path))
  {
    var workers := Members(path);
    assert path[0] in workers;
    forall w | w in workers
      ensures Blocked(st, w) && Blocker(st, w) in workers
    {
      var i :| 0 <= i < |path| && path[i] == w;
      OnClosedPath(st, path, u, i);
    }
  }

  lemma OnClosedPath(st: State, path: seq<Id>, u: Id, i: nat)
    requires Chain(st, path) && path[|path| - 1] == u && Blocked(st, u) && Blocker(st, u) == path[0] && i < |path|
    ensures Blocked(st, path[i]) && Blocker(st, path[i]) in path
  {
    if i < |path| - 1 {
      assert Blocker(st, path[i]) == path[i + 1];
    }
  }

  lemma KeysHeldAgainst(st: State, u: Id)
    requires Keys in st.locks && HandlerAtCell(st, st.locks[Keys]) && HandlerAtKeys(st, u)
    ensures Blocked(st, u) && Blocker(st, u) == st.locks[Keys]
  {
  }

  // Workers wait for one another exactly in that case.
  lemma KnotExactly(g: Grid, st: State)
    requires Reachable(g, st)
    ensures (exists workers: set<Id> :: Knot(st, workers)) <==> CrossedAtKeys(st)
  {
    ReachableInv(g, st);
    if CrossedAtKeys(st) {
      var u :| WaitsBehind(st, st.locks[Keys], u) && HandlerAtKeys(st, u);
      var path :| ChainTo(st, path, st.locks[Keys], u);
      KeysHeldAgainst(st, u);
      ClosedIsKnot(st, path, u);
    } else if exists workers: set<Id> :: Knot(st, workers) {
      var workers: set<Id> :| Knot(st, workers);
      KnotCrosses(g, st, workers);
    }
  }

  lemma KnotCrosses(g: Grid, st: State, workers: set<Id>)
    requires Inv(g, st) && Knot(st, workers)
    ensures CrossedAtKeys(st)
  {
    var w :| w in workers;
    BlockerIs(g, st, w);
    var u0 := FindAtKeys(g, st, workers, w, Wanted(st, w).value);
    var v := FindAtCell(g, st, workers, u0);
    assert v == st.locks[Keys];
    BlockerIs(g, st, v);
    var u, path := PathToKeys(g, st, workers, v, Wanted(st, v).value);
    assert WaitsBehind(st, v, u);
  }

  // Every worker can go on, or waits along a chain of holders for one that can,
  // exactly unless the two lock orders are crossed in that way.
  lemma ServedExactlyUnlessCrossed(g: Grid, st: State)
    requires Reachable(g, st)
    ensures (forall w :: AtWork(st, w) ==> Served(st, w)) <==> !CrossedAtKeys(st)
  {
    ServedExactlyWithoutKnot(g, st);
    KnotExactly(g, st);
  }

  // As long as no handler inside a broadcast waits for the key table, or none
  // inside a login for a cell: whenever work is left, some worker can go on.
  lemma ProgressWithoutBoth(g: Grid, st: State, p: Id)
    requires Reachable(g, st) && AtWork(st, p)
    requires (forall u :: !HandlerAtKeys(st, u)) || (forall v :: !HandlerAtCell(st, v))
    ensures Served(st, p) && exists u :: AtWork(st, u) && Next(g, st, Advance(Active(st, u))).Some?
  {
    ReachableInv(g, st);
    forall workers: set<Id>
      ensures !Knot(st, workers)
    {
      if Knot(st, workers) {
        KnotHasBoth(g, st, workers);
      }
    }
    ServedExactlyWithoutKnot(g, st);
    var n :| ServedWithin(st, p, n);
    var u := ServedBy(g, st, p, n);
    GoesOnUnlessBlocked(g, st, u);
  }

  lemma {:induction false} ServedBy(g: Grid, st: State, w: Id, n: nat) returns (u: Id)
    requires Inv(g, st) && AtWork(st, w) && ServedWithin(st, w, n)
    ensures AtWork(st, u) && !Blocked(st, u)
    decreases n
  {
    if Blocked(st, w) {
      BlockerIs(g, st, w);
      u := ServedBy(g, st, Blocker(st, w), n - 1);
    } else {
      u := w;
    }
  }

  // ---- runs in which no operation runs a handler --------------------------------------------------------

  predicate Plain(events: seq<Event>) {
    forall i :: 0 <= i < |events| ==> !events[i].Drop?
  }

  predicate Unnested(st: State) {
    forall p :: p in st.players ==> st.players[p].inner == None && st.players[p].dropped == []
  }

  lemma StepUnnested(g: Grid, st: State, e: Event)
    requires Inv(g, st) && Unnested(st) && !e.Drop? && Next(g, st, e).Some?
    ensures Unnested(Next(g, st, e).value)
  {
    var f := EffectOf(g, st, e).value;
    assert !Nested(st.players[e.p]);
    SettleKeys(st.players, e.p, f);
    StillUnnested(g, st, e);
    UnnestedSettles(st.players, e.p, f);
  }

  lemma UnnestedSettles(players: map<Id, Player>, p: Id, f: Effect)
    requires p in players && !Nested(players[p]) && f.next.inner == None && f.next.dropped == []
    requires forall u :: u in players ==> players[u].inner == None && players[u].dropped == []
    ensures forall u :: u in Settle(players, p, f) ==>
              Settle(players, p, f)[u].inner == None && Settle(players, p, f)[u].dropped == []
  {
  }

  lemma StillUnnested(g: Grid, st: State, e: Event)
    requires EffectOf(g, st, e).Some? && st.players[e.p].inner == None && st.players[e.p].dropped == []
    ensures EffectOf(g, st, e).value.next.inner == None && EffectOf(g, st, e).value.next.dropped == []
  {
  }

  lemma {:induction false} RunUnnested(g: Grid, st: State, events: seq<Event>)
    requires Inv(g, st) && Unnested(st) && Plain(events) && Run(g, st, events).Some?
    ensures Unnested(Run(g, st, events).value)
    decreases |events|
  {
    if events != [] {
      StepInv(g, st, events[0]);
      StepUnnested(g, st, events[0]);
      RunUnnested(g, Next(g, st, events[0]).value, events[1..]);
    }
  }

  // If no operation ever lowers another session's last count under its locks,
  // there is no deadlock, and every broadcast sends a snapshot of one moment.
  lemma PlainRunsAreSafe(g: Grid, start: State, events: seq<Event>, p: Id)
    requires Init(g, start) && Plain(events) && Run(g, start, events).Some?
    ensures var st := Run(g, start, events).value;
            && (AtWork(st, p) ==> exists u :: AtWork(st, u) && Next(g, st, Advance(Active(st, u))).Some?)
            && (SentToAll(st, p) ==> Snapshot(st, p))
  {
    var st := Run(g, start, events).value;
    InitInv(g, start);
    RunUnnested(g, start, events);
    assert Reachable(g, st);
    if AtWork(st, p) {
      ProgressWithoutBoth(g, st, p);
    }
    if SentToAll(st, p) {
      SnapshotExactly(g, st, p);
    }
  }

  // ---- every operation ends ------------------------------------------------------------------------------

  // Stages left of an operation; the handler has three parts.
  function Remaining(l: Player): nat {
    if l.task == Idle then 0
    else
      var plan := |l.task.plan|;
      var parts := if l.task.op.Check? then 10 else if l.task.op.Leave? then 5 else 0;
      parts + match l.task.stage
              case Locking(n) => if n <= plan then 4 * plan + 1 - n else 0
              case Working(n) => if n <= plan then 2 * (plan - n) + plan else 0
              case Reading(n) => if n < plan then 2 * (plan - n) + plan - 1 else 0
              case Unlocking(n) => if n <= plan then plan - n else 0
              case Stuck => 0
  }

  // Fewer stages, or the same and fewer players left in the list being read.
  predicate Nearer(l: Player, before: Player) {
    Remaining(l) < Remaining(before) || (Remaining(l) == Remaining(before) && |l.todo| < |before.todo|)
  }

  // Each step brings its own operation nearer to its end and leaves the tasks
  // of the others alone.
  lemma StepsFinish(g: Grid, st: State, p: Id)
    requires Inv(g, st) && Next(g, st, Advance(p)).Some?
    ensures var st' := Next(g, st, Advance(p)).value;
            && p in st.players && st'.players.Keys == st.players.Keys
            && Nearer(st'.players[p], st.players[p])
            && forall q :: q in st.players && q != p ==> st'.players[q].task == st.players[q].task
  {
    assert RightPlace(st.lists, p, st.players[p]) && PlayerOk(g, st.players[p]);
    ShorterAfterStep(g, st, p);
    var f := NextStep(st, p).value;
    SettleKeys(st.players, p, f);
    forall q | q in st.players && q != p
      ensures Settle(st.players, p, f)[q].task == st.players[q].task
    {
      SettleOthers(st.players, p, f, q);
    }
  }

  lemma ShorterAfterStep(g: Grid, st: State, p: Id)
    requires p in st.players && PlayerOk(g, st.players[p]) && RightPlace(st.lists, p, st.players[p])
    requires NextStep(st, p).Some?
    ensures Nearer(NextStep(st, p).value.next, st.players[p])
  {
    var l := st.players[p];
    if l.task.stage.Working? {
      var n, plan := l.task.stage.n, l.task.plan;
      if l.task.op.Move? && n == 0 {
        assert p in st.lists[l.task.op.source];
      }
      ShorterWork(l, n, p in ListAt(st.lists, HomeList(l.task.op)),
                  if n < |plan| then ListUnder(st.lists, plan[n]) else []);
    } else if l.task.stage.Unlocking? && l.task.stage.n + 1 == |l.task.plan| {
      ShorterFinished(l);
    }
  }

  lemma ShorterWork(l: Player, n: nat, found: bool, list: seq<Id>)
    requires l.task.Busy? && l.task.stage == Working(n) && StageOk(l.task) && (l.task.op.Move? && n == 0 ==> found)
    requires |l.task.plan| > 0 && (l.task.op.Move? ==> |l.task.plan| == 2)
    ensures Remaining(Work(l, n, found, list).next) < Remaining(l)
  {
  }

  lemma ShorterFinished(l: Player)
    requires l.task.Busy? && l.task.stage.Unlocking? && l.task.stage.n + 1 == |l.task.plan|
    ensures Remaining(Finished(l)) < Remaining(l)
  {
  }
}
