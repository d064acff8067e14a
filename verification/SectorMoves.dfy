// The dummy client's worker threads moving sessions between sector lists, one
// locked region at a time: RemoveSector takes one cell lock and gives it back
// before AddSector takes another. Every interleaving of the threads is a
// sequence of events of this machine.
module SectorMoves {
  import opened SectorGrid
  import opened Wrappers

  type Id = nat
  type Tid = nat

  // Each session is worked on by the one thread whose index range holds it.
  datatype Config = Config(grid: Grid, owner: map<Id, Tid>)

  // What follows the erase: a move goes on to another cell, closing does not;
  // it also happens to sessions that never had a character.
  datatype Goal = Into(cell: Cell) | Away(entered: bool)

  // How far the owner is inside Sector_UpdateSession, the AddSector of
  // Packet_CreateCharacter, or the RemoveSector of CloseSession.
  datatype Phase =
    | Idle
    | Erase(goal: Goal)
    | EraseLocked(goal: Goal)
    | EraseDone(goal: Goal)
    | Write(target: Cell)
    | Append
    | AppendLocked
    | AppendDone
  {
    // Inside the region guarded by the lock of CurSector.
    predicate Locked() {
      EraseLocked? || EraseDone? || AppendLocked? || AppendDone?
    }
  }

  // A session: its operation, its CurSector, whether it is registered.
  datatype Session = Session(phase: Phase, cell: Cell, registered: bool) {
    // It must be in its list, except between its erase and its append.
    predicate Listed() {
      match phase
      case Idle => registered
      case Erase(goal) => goal.Into? || goal.entered
      case EraseLocked(goal) => goal.Into? || goal.entered
      case EraseDone(_) => false
      case Write(_) => false
      case Append => false
      case AppendLocked => false
      case AppendDone => true
    }

    // Closing takes the registration away first, joining gives it first.
    predicate Coherent() {
      if phase.Idle? then true
      else if (phase.Erase? || phase.EraseLocked? || phase.EraseDone?) && phase.goal.Away? then !registered
      else registered
    }
  }

  // locks: the session whose operation holds the cell's lock.
  datatype State = State(lists: Lists<Id>, sessions: map<Id, Session>, locks: map<Cell, Id>)

  datatype Event =
    | BeginMove(s: Id, cell: Cell)
    | BeginJoin(s: Id, cell: Cell)
    | BeginLeave(s: Id)
    | Advance(s: Id)

  // ---- one step ---------------------------------------------------------------------

  datatype ListOp = Keep | EraseHere | AppendHere
  datatype LockOp = NoLock | Acquire | Release

  // What a step does to its own session, to the list of the session's cell and
  // to that cell's lock.
  datatype Effect = Effect(next: Session, list: ListOp, lock: LockOp)

  // A session's next step; None when it is idle or must wait for the lock.
  function NextStep(l: Session, inGrid: bool, free: bool): Option<Effect> {
    match l.phase
    case Idle => None
    case Erase(goal) =>
      if !inGrid then Some(Effect(AfterErase(l, goal), Keep, NoLock))
      else if !free then None
      else Some(Effect(l.(phase := EraseLocked(goal)), Keep, Acquire))
    case EraseLocked(goal) => Some(Effect(l.(phase := EraseDone(goal)), EraseHere, NoLock))
    case EraseDone(goal) => Some(Effect(AfterErase(l, goal), Keep, Release))
    case Write(target) => Some(Effect(l.(phase := Append, cell := target), Keep, NoLock))
    case Append =>
      if !inGrid then Some(Effect(l.(phase := Idle), Keep, NoLock))
      else if !free then None
      else Some(Effect(l.(phase := AppendLocked), Keep, Acquire))
    case AppendLocked => Some(Effect(l.(phase := AppendDone), AppendHere, NoLock))
    case AppendDone => Some(Effect(l.(phase := Idle), Keep, Release))
  }

  function AfterErase(l: Session, goal: Goal): Session {
    match goal
    case Into(cell) => l.(phase := Write(cell))
    case Away(_) => l.(phase := Idle)
  }

  // A thread works on one session at a time.
  ghost predicate OwnerIdle(k: Config, st: State, s: Id) {
    s in k.owner && s in st.sessions
    && forall u :: u in st.sessions && u in k.owner && k.owner[u] == k.owner[s] ==> st.sessions[u].phase == Idle
  }

  // None: the event is not possible now.
  ghost function EffectOf(k: Config, st: State, e: Event): Option<Effect> {
    if e.s !in st.sessions then None
    else
      var l := st.sessions[e.s];
      match e
      case BeginMove(s, cell) =>
        if OwnerIdle(k, st, s) && l.registered && cell != l.cell
          then Some(Effect(l.(phase := Erase(Into(cell))), Keep, NoLock)) else None
      case BeginJoin(s, cell) =>
        if OwnerIdle(k, st, s)
          then Some(Effect(l.(phase := Write(cell), registered := true), Keep, NoLock)) else None
      case BeginLeave(s) =>
        if OwnerIdle(k, st, s)
          then Some(Effect(l.(phase := Erase(Away(l.registered)), registered := false), Keep, NoLock)) else None
      case Advance(_) => NextStep(l, k.grid.Has(l.cell), l.cell !in st.locks)
  }

  function Apply(st: State, s: Id, f: Effect): State
    requires s in st.sessions
  {
    var c := st.sessions[s].cell;
    State(
      match f.list
      case Keep => st.lists
      case EraseHere => Erased(st.lists, c, s)
      case AppendHere => Appended(st.lists, c, s),
      st.sessions[s := f.next],
      match f.lock
      case NoLock => st.locks
      case Acquire => st.locks[c := s]
      case Release => st.locks - {c})
  }

  ghost function Next(k: Config, st: State, e: Event): Option<State> {
    match EffectOf(k, st, e)
    case None => None
    case Some(f) => Some(Apply(st, e.s, f))
  }

  // The server creates the character of a session a second time while the
  // session stands in a list.
  predicate Overlapping(k: Config, st: State, e: Event) {
    e.BeginJoin? && e.s in st.sessions && st.sessions[e.s].registered && k.grid.Has(st.sessions[e.s].cell)
  }

  // ---- what every effect respects -------------------------------------------------------

  predicate Disciplined(l: Session, f: Effect, inGrid: bool, free: bool) {
    && f.next.Coherent()
    && (f.lock == Acquire ==> inGrid && free && !l.phase.Locked() && f.next.phase.Locked() && f.next.cell == l.cell)
    && (f.lock == Release ==> l.phase.Locked() && !f.next.phase.Locked())
    && (f.lock == NoLock ==> l.phase.Locked() == f.next.phase.Locked())
    && (f.list != Keep ==> l.phase.Locked() && f.next.phase.Locked())
    && (f.next.cell != l.cell ==> !l.phase.Locked() && f.lock == NoLock)
  }

  // The list changes as the session's standing does.
  predicate Tracked(l: Session, f: Effect, inGrid: bool) {
    && (f.list == EraseHere ==> !f.next.Listed())
    && (f.list == AppendHere ==> !l.Listed() && f.next.Listed())
    && (f.list == Keep ==> l.Listed() == f.next.Listed() || !inGrid)
    && (f.next.cell != l.cell ==> !l.Listed() && !f.next.Listed())
  }

  lemma EffectsDisciplined(k: Config, st: State, e: Event)
    requires EffectOf(k, st, e).Some? && st.sessions[e.s].Coherent()
    ensures Disciplined(st.sessions[e.s], EffectOf(k, st, e).value,
                        k.grid.Has(st.sessions[e.s].cell), st.sessions[e.s].cell !in st.locks)
    ensures st.sessions[e.s].phase == Idle ==> OwnerIdle(k, st, e.s)
  {
  }

  lemma EffectsTracked(k: Config, st: State, e: Event)
    requires EffectOf(k, st, e).Some? && st.sessions[e.s].Coherent() && !Overlapping(k, st, e)
    ensures Tracked(st.sessions[e.s], EffectOf(k, st, e).value, k.grid.Has(st.sessions[e.s].cell))
  {
  }

  // ---- the invariant ---------------------------------------------------------------------

  ghost predicate OneOperationPerThread(k: Config, st: State) {
    forall s, u ::
      s in st.sessions && u in st.sessions && s != u && s in k.owner && u in k.owner && k.owner[s] == k.owner[u]
      ==> st.sessions[s].phase == Idle || st.sessions[u].phase == Idle
  }

  ghost predicate LocksOk(g: Grid, st: State) {
    && (forall c :: c in st.locks ==>
         st.locks[c] in st.sessions && st.sessions[st.locks[c]].phase.Locked() && st.sessions[st.locks[c]].cell == c)
    && forall s :: s in st.sessions && st.sessions[s].phase.Locked() ==>
         g.Has(st.sessions[s].cell) && st.sessions[s].cell in st.locks && st.locks[st.sessions[s].cell] == s
  }

  ghost predicate RightPlace(g: Grid, lists: Lists<Id>, s: Id, l: Session) {
    if l.Listed() then Placed(lists, g, s, l.cell) else Absent(lists, s)
  }

  ghost predicate PlacesOk(g: Grid, st: State) {
    && Covers(st.lists, g)
    && (forall s :: s in st.sessions ==> RightPlace(g, st.lists, s, st.sessions[s]))
    && forall s :: s !in st.sessions ==> Absent(st.lists, s)
  }

  // What every step keeps.
  ghost predicate Orderly(k: Config, st: State) {
    && (forall s :: s in st.sessions ==> s in k.owner && st.sessions[s].Coherent())
    && OneOperationPerThread(k, st) && LocksOk(k.grid, st) && Covers(st.lists, k.grid)
  }

  ghost predicate Inv(k: Config, st: State) {
    Orderly(k, st) && PlacesOk(k.grid, st)
  }

  // No session registered, every list empty, nothing under way.
  ghost predicate Init(k: Config, st: State) {
    && (forall s :: s in st.sessions ==> s in k.owner && st.sessions[s].phase == Idle && !st.sessions[s].registered)
    && st.locks == map[] && Covers(st.lists, k.grid) && forall c :: c in st.lists ==> st.lists[c] == []
  }

  lemma InitInv(k: Config, st: State)
    requires Init(k, st)
    ensures Inv(k, st)
  {
  }

  lemma ApplyLocks(g: Grid, st: State, s: Id, f: Effect)
    requires LocksOk(g, st) && s in st.sessions
    requires Disciplined(st.sessions[s], f, g.Has(st.sessions[s].cell), st.sessions[s].cell !in st.locks)
    ensures LocksOk(g, Apply(st, s, f))
  {
  }

  lemma ApplyPlaces(g: Grid, st: State, s: Id, f: Effect)
    requires PlacesOk(g, st) && s in st.sessions
    requires Disciplined(st.sessions[s], f, g.Has(st.sessions[s].cell), st.sessions[s].cell !in st.locks)
    requires Tracked(st.sessions[s], f, g.Has(st.sessions[s].cell))
    ensures PlacesOk(g, Apply(st, s, f))
  {
    var st', c := Apply(st, s, f), st.sessions[s].cell;
    assert RightPlace(g, st.lists, s, st.sessions[s]);
    if f.list == EraseHere && st.sessions[s].Listed() {
      ErasePlaced(st.lists, g, s, c);
    } else if f.list == AppendHere {
      AppendPlaced(st.lists, g, s, c);
    }
    forall u | u != s
      ensures u in st.sessions ==> RightPlace(g, st'.lists, u, st.sessions[u])
      ensures u !in st.sessions ==> Absent(st'.lists, u)
    {
      OthersStay(st.lists, g, s, c, u, if u in st.sessions then st.sessions[u].cell else c);
    }
  }

  lemma StepOrderly(k: Config, st: State, e: Event)
    requires Orderly(k, st) && Next(k, st, e).Some?
    ensures Orderly(k, Next(k, st, e).value)
  {
    var f := EffectOf(k, st, e).value;
    EffectsDisciplined(k, st, e);
    ApplyLocks(k.grid, st, e.s, f);
    ApplyOneOperation(k, st, e.s, f);
  }

  lemma ApplyOneOperation(k: Config, st: State, s: Id, f: Effect)
    requires OneOperationPerThread(k, st) && s in st.sessions
    requires st.sessions[s].phase == Idle ==> OwnerIdle(k, st, s)
    ensures OneOperationPerThread(k, Apply(st, s, f))
  {
  }

  // A step keeps every session in its place exactly if it is not the start of
  // an overlapping join.
  lemma StepInv(k: Config, st: State, e: Event)
    requires Inv(k, st) && Next(k, st, e).Some?
    ensures Orderly(k, Next(k, st, e).value)
    ensures PlacesOk(k.grid, Next(k, st, e).value) <==> !Overlapping(k, st, e)
  {
    var f := EffectOf(k, st, e).value;
    StepOrderly(k, st, e);
    EffectsDisciplined(k, st, e);
    if Overlapping(k, st, e) {
      StaysBehind(k, st, e);
    } else {
      EffectsTracked(k, st, e);
      ApplyPlaces(k.grid, st, e.s, f);
    }
  }

  // The old entry is still there, and nothing will ever erase it.
  lemma StaysBehind(k: Config, st: State, e: Event)
    requires Inv(k, st) && Next(k, st, e).Some? && Overlapping(k, st, e)
    ensures !PlacesOk(k.grid, Next(k, st, e).value)
  {
    var st' := Next(k, st, e).value;
    assert RightPlace(k.grid, st.lists, e.s, st.sessions[e.s]);
    assert IndexedAt(st'.lists, e.s, st.sessions[e.s].cell);
    assert !RightPlace(k.grid, st'.lists, e.s, st'.sessions[e.s]);
  }

  // ---- whole runs -----------------------------------------------------------------------

  ghost function Run(k: Config, st: State, events: seq<Event>): Option<State>
    decreases |events|
  {
    if events == [] then Some(st)
    else match Next(k, st, events[0])
      case None => None
      case Some(st') => Run(k, st', events[1..])
  }

  // No join of the run overlaps.
  ghost predicate Separate(k: Config, st: State, events: seq<Event>)
    decreases |events|
  {
    events == [] || (!Overlapping(k, st, events[0]) && Next(k, st, events[0]).Some?
                     && Separate(k, Next(k, st, events[0]).value, events[1..]))
  }

  // Every session is in its place at every point of the run.
  ghost predicate AlwaysPlaced(k: Config, st: State, events: seq<Event>)
    decreases |events|
  {
    PlacesOk(k.grid, st)
    && (events != [] && Next(k, st, events[0]).Some? ==> AlwaysPlaced(k, Next(k, st, events[0]).value, events[1..]))
  }

  lemma {:induction false} RunOrderly(k: Config, st: State, events: seq<Event>)
    requires Orderly(k, st) && Run(k, st, events).Some?
    ensures Orderly(k, Run(k, st, events).value)
    decreases |events|
  {
    if events != [] {
      StepOrderly(k, st, events[0]);
      RunOrderly(k, Next(k, st, events[0]).value, events[1..]);
    }
  }

  lemma {:induction false} RunInv(k: Config, st: State, events: seq<Event>)
    requires Inv(k, st) && Run(k, st, events).Some?
    ensures AlwaysPlaced(k, st, events) <==> Separate(k, st, events)
    ensures Separate(k, st, events) ==> Inv(k, Run(k, st, events).value)
    decreases |events|
  {
    if events != [] {
      StepInv(k, st, events[0]);
      if !Overlapping(k, st, events[0]) {
        RunInv(k, Next(k, st, events[0]).value, events[1..]);
      }
    }
  }

  // Whatever the threads do and in whatever order: at every point of a run each
  // session stands once in the list of its sector if it is registered, and in
  // none otherwise or between its erase and its append, exactly if no join of
  // the run meets a session that stands in a list.
  lemma IndexRightExactlyIfSeparate(k: Config, start: State, events: seq<Event>)
    requires Init(k, start) && Run(k, start, events).Some?
    ensures AlwaysPlaced(k, start, events) <==> Separate(k, start, events)
  {
    InitInv(k, start);
    RunInv(k, start, events);
  }

  // No element stands in two lists or twice in one.
  ghost predicate AtMostOnce(lists: Lists<Id>, s: Id) {
    && (forall c :: c in lists ==> Times(lists[c], s) <= 1)
    && forall c, d :: c in lists && d in lists && Times(lists[c], s) > 0 && Times(lists[d], s) > 0 ==> c == d
  }

  // Then, after any interleaving, nobody is indexed twice, and a session that
  // is not under way stands exactly in the list of its sector if it is
  // registered, and in no list otherwise.
  lemma IndexRightInEveryRun(k: Config, start: State, events: seq<Event>, s: Id)
    requires Init(k, start) && Run(k, start, events).Some? && Separate(k, start, events)
    ensures var st := Run(k, start, events).value;
            && AtMostOnce(st.lists, s)
            && (s in st.sessions && st.sessions[s].phase == Idle ==>
                  if st.sessions[s].registered then Placed(st.lists, k.grid, s, st.sessions[s].cell)
                  else Absent(st.lists, s))
  {
    InitInv(k, start);
    RunInv(k, start, events);
    var st := Run(k, start, events).value;
    assert s in st.sessions ==> RightPlace(k.grid, st.lists, s, st.sessions[s]);
  }

  // No thread ever holds two cell locks.
  lemma OneLockPerThread(k: Config, start: State, events: seq<Event>, c: Cell, d: Cell)
    requires Init(k, start) && Run(k, start, events).Some?
    requires c in Run(k, start, events).value.locks && d in Run(k, start, events).value.locks && c != d
    ensures var locks := Run(k, start, events).value.locks;
            locks[c] in k.owner && locks[d] in k.owner && k.owner[locks[c]] != k.owner[locks[d]]
  {
    InitInv(k, start);
    RunOrderly(k, start, events);
  }

  // A list changes only while the changing operation holds that cell's lock.
  lemma ListsChangeUnderLock(k: Config, st: State, e: Event, c: Cell)
    requires Orderly(k, st) && Next(k, st, e).Some? && c in st.lists
    ensures var st' := Next(k, st, e).value;
            c in st'.lists
            && (st'.lists[c] != st.lists[c] ==> c in st.locks && c in st'.locks && st.locks[c] == st'.locks[c] == e.s)
  {
    EffectsDisciplined(k, st, e);
  }

  // The sector the operation under way ends in.
  function Destination(l: Session): Cell {
    match l.phase
    case Erase(Into(c)) => c
    case EraseLocked(Into(c)) => c
    case EraseDone(Into(c)) => c
    case Write(c) => c
    case _ => l.cell
  }

  // Only the start of a move or join chooses a destination; all later steps,
  // of this thread and of the others, keep it. So the session is idle again in
  // the sector that was asked for.
  lemma DestinationKept(k: Config, st: State, e: Event, s: Id)
    requires Next(k, st, e).Some? && s in st.sessions
    ensures s in Next(k, st, e).value.sessions
    ensures Destination(Next(k, st, e).value.sessions[s])
         == if (e.BeginMove? || e.BeginJoin?) && e.s == s then e.cell else Destination(st.sessions[s])
  {
  }

  // A thread with nothing else under way may begin a join or a close of any of
  // its sessions, and a move exactly of a registered one to another sector.
  lemma MayBegin(k: Config, st: State, s: Id, cell: Cell)
    requires s in st.sessions && s in k.owner
    requires forall u :: u in st.sessions && u in k.owner && st.sessions[u].phase != Idle ==> k.owner[u] != k.owner[s]
    ensures Next(k, st, BeginJoin(s, cell)).Some? && Next(k, st, BeginLeave(s)).Some?
    ensures Next(k, st, BeginMove(s, cell)).Some? <==> st.sessions[s].registered && cell != st.sessions[s].cell
  {
    assert OwnerIdle(k, st, s);
  }

  // None of the events begins an operation of s.
  predicate NoneBegins(s: Id, events: seq<Event>) {
    forall e :: e in events ==> e.Advance? || e.s != s
  }

  lemma {:induction false} ChosenKept(k: Config, st: State, events: seq<Event>, s: Id)
    requires Run(k, st, events).Some? && NoneBegins(s, events) && s in st.sessions
    ensures var st' := Run(k, st, events).value;
            && s in st'.sessions && Destination(st'.sessions[s]) == Destination(st.sessions[s])
            && st'.sessions[s].registered == st.sessions[s].registered
    decreases |events|
  {
    if events != [] {
      assert events[0] in events;
      DestinationKept(k, st, events[0], s);
      RegistrationKept(k, st, events[0], s);
      ChosenKept(k, Next(k, st, events[0]).value, events[1..], s);
    }
  }

  lemma RegistrationKept(k: Config, st: State, e: Event, s: Id)
    requires Next(k, st, e).Some? && s in st.sessions && (e.Advance? || e.s != s)
    ensures s in Next(k, st, e).value.sessions
    ensures Next(k, st, e).value.sessions[s].registered == st.sessions[s].registered
  {
  }

  // Once an operation has begun, and whatever the threads do then: when the
  // session is idle again without a second operation, a join or move has left
  // it registered, in the sector asked for, once in that sector's list and in
  // no other; a close has left it unregistered and in none.
  lemma Arrives(k: Config, st: State, e: Event, begun: State, events: seq<Event>, end: State)
    requires Inv(k, st) && !e.Advance? && !Overlapping(k, st, e) && Next(k, st, e) == Some(begun)
    requires Run(k, begun, events) == Some(end) && Separate(k, begun, events) && NoneBegins(e.s, events)
    ensures e.s in end.sessions
    ensures end.sessions[e.s].phase == Idle && !e.BeginLeave? ==>
              end.sessions[e.s] == Session(Idle, e.cell, true) && Placed(end.lists, k.grid, e.s, e.cell)
    ensures end.sessions[e.s].phase == Idle && e.BeginLeave? ==>
              !end.sessions[e.s].registered && Absent(end.lists, e.s)
  {
    StepInv(k, st, e);
    RunInv(k, begun, events);
    DestinationKept(k, st, e, e.s);
    ChosenKept(k, begun, events, e.s);
    assert RightPlace(k.grid, end.lists, e.s, end.sessions[e.s]);
  }

  // ---- progress ---------------------------------------------------------------------------

  // An unfinished operation can go on, or the holder of the lock it waits for
  // can: no deadlock.
  lemma SomeoneCanGoOn(k: Config, st: State, s: Id) returns (u: Id)
    requires Orderly(k, st) && s in st.sessions && st.sessions[s].phase != Idle
    ensures Next(k, st, Advance(u)).Some?
    ensures u == s || (st.sessions[s].cell in st.locks && u == st.locks[st.sessions[s].cell])
  {
    var l := st.sessions[s];
    if k.grid.Has(l.cell) && l.cell in st.locks && !l.phase.Locked() && !l.phase.Write? {
      u := st.locks[l.cell];
      NotWaiting(k, st, u);
    } else {
      u := s;
      NotWaiting(k, st, u);
    }
  }

  lemma NotWaiting(k: Config, st: State, s: Id)
    requires s in st.sessions && st.sessions[s].phase != Idle
    requires k.grid.Has(st.sessions[s].cell) && st.sessions[s].cell in st.locks ==>
               st.sessions[s].phase.Locked() || st.sessions[s].phase.Write?
    ensures Next(k, st, Advance(s)).Some?
  {
  }

  // Steps left until the operation is over.
  function Remaining(p: Phase): nat {
    match p
    case Idle => 0
    case Erase(_) => 7
    case EraseLocked(_) => 6
    case EraseDone(_) => 5
    case Write(_) => 4
    case Append => 3
    case AppendLocked => 2
    case AppendDone => 1
  }

  // Every step brings its own operation nearer to its end and leaves the
  // others where they are, so an operation takes at most seven steps.
  lemma StepsFinish(k: Config, st: State, s: Id)
    requires Next(k, st, Advance(s)).Some?
    ensures var st' := Next(k, st, Advance(s)).value;
            && s in st.sessions && st'.sessions.Keys == st.sessions.Keys
            && Remaining(st'.sessions[s].phase) < Remaining(st.sessions[s].phase) <= 7
            && forall u :: u in st.sessions && u != s ==> st'.sessions[u] == st.sessions[u]
  {
  }

  // ---- a character created twice -----------------------------------------------------------

  const FIELD := Config(Grid(2, 1, 1, 1), map[7 := 0])
  const HERE := Cell(0, 0)
  const THERE := Cell(1, 0)

  // Session 7 is the only one.
  function Alone(lists: Lists<Id>, phase: Phase, cell: Cell, registered: bool, locks: map<Cell, Id>): State {
    State(lists, map[7 := Session(phase, cell, registered)], locks)
  }

  function Lists2(here: seq<Id>, there: seq<Id>): Lists<Id> {
    map[HERE := here, THERE := there]
  }

  const NOBODY := Alone(Lists2([], []), Idle, HERE, false, map[])
  const JOINED := Alone(Lists2([7], []), Idle, HERE, true, map[])
  const IN_BOTH := Alone(Lists2([7], [7]), Idle, THERE, true, map[])
  const TWICE_HERE := Alone(Lists2([7, 7], []), Idle, HERE, true, map[])
  const LEFT_BEHIND := Alone(Lists2([7], []), Idle, THERE, false, map[])

  lemma OnlyOne(a: Session, b: Session)
    ensures map[7 := a][7 := b] == map[7 := b]
  {
  }

  lemma JoinBegins(lists: Lists<Id>, from: Cell, registered: bool, cell: Cell)
    ensures Next(FIELD, Alone(lists, Idle, from, registered, map[]), BeginJoin(7, cell))
         == Some(Alone(lists, Write(cell), from, true, map[]))
  {
    assert OwnerIdle(FIELD, Alone(lists, Idle, from, registered, map[]), 7);
    OnlyOne(Session(Idle, from, registered), Session(Write(cell), from, true));
  }

  lemma JoinWrites(lists: Lists<Id>, from: Cell, cell: Cell)
    ensures Next(FIELD, Alone(lists, Write(cell), from, true, map[]), Advance(7))
         == Some(Alone(lists, Append, cell, true, map[]))
  {
    OnlyOne(Session(Write(cell), from, true), Session(Append, cell, true));
  }

  lemma JoinLocks(lists: Lists<Id>, cell: Cell)
    requires FIELD.grid.Has(cell)
    ensures Next(FIELD, Alone(lists, Append, cell, true, map[]), Advance(7))
         == Some(Alone(lists, AppendLocked, cell, true, map[cell := 7]))
  {
    OnlyOne(Session(Append, cell, true), Session(AppendLocked, cell, true));
  }

  lemma JoinAppends(lists: Lists<Id>, cell: Cell)
    ensures Next(FIELD, Alone(lists, AppendLocked, cell, true, map[cell := 7]), Advance(7))
         == Some(Alone(Appended(lists, cell, 7), AppendDone, cell, true, map[cell := 7]))
  {
    OnlyOne(Session(AppendLocked, cell, true), Session(AppendDone, cell, true));
  }

  lemma JoinUnlocks(lists: Lists<Id>, cell: Cell)
    ensures Next(FIELD, Alone(lists, AppendDone, cell, true, map[cell := 7]), Advance(7))
         == Some(Alone(lists, Idle, cell, true, map[]))
  {
    OnlyOne(Session(AppendDone, cell, true), Session(Idle, cell, true));
    assert map[cell := 7] - {cell} == map[];
  }

  lemma RunFirst(st: State, e: Event, next: State, events: seq<Event>, to: State)
    requires Next(FIELD, st, e) == Some(next) && Run(FIELD, next, events) == Some(to)
    ensures Run(FIELD, st, [e] + events) == Some(to)
  {
    assert ([e] + events)[1..] == events;
  }

  function Moves(n: nat): seq<Event> {
    if n == 0 then [] else [Advance(7)] + Moves(n - 1)
  }

  // A join from beginning to end.
  lemma JoinRuns(lists: Lists<Id>, from: Cell, registered: bool, cell: Cell)
    requires FIELD.grid.Has(cell)
    ensures Run(FIELD, Alone(lists, Idle, from, registered, map[]), [BeginJoin(7, cell)] + Moves(4))
         == Some(Alone(Appended(lists, cell, 7), Idle, cell, true, map[]))
  {
    var after := Appended(lists, cell, 7);
    var to := Alone(after, Idle, cell, true, map[]);
    JoinUnlocks(after, cell);
    RunFirst(Alone(after, AppendDone, cell, true, map[cell := 7]), Advance(7), to, Moves(0), to);
    JoinAppends(lists, cell);
    RunFirst(Alone(lists, AppendLocked, cell, true, map[cell := 7]), Advance(7),
             Alone(after, AppendDone, cell, true, map[cell := 7]), Moves(1), to);
    JoinLocks(lists, cell);
    RunFirst(Alone(lists, Append, cell, true, map[]), Advance(7),
             Alone(lists, AppendLocked, cell, true, map[cell := 7]), Moves(2), to);
    JoinWrites(lists, from, cell);
    RunFirst(Alone(lists, Write(cell), from, true, map[]), Advance(7),
             Alone(lists, Append, cell, true, map[]), Moves(3), to);
    JoinBegins(lists, from, registered, cell);
    RunFirst(Alone(lists, Idle, from, registered, map[]), BeginJoin(7, cell),
             Alone(lists, Write(cell), from, true, map[]), Moves(4), to);
  }

  lemma LeaveBegins(lists: Lists<Id>, cell: Cell)
    ensures Next(FIELD, Alone(lists, Idle, cell, true, map[]), BeginLeave(7))
         == Some(Alone(lists, Erase(Away(true)), cell, false, map[]))
  {
    assert OwnerIdle(FIELD, Alone(lists, Idle, cell, true, map[]), 7);
    OnlyOne(Session(Idle, cell, true), Session(Erase(Away(true)), cell, false));
  }

  lemma LeaveLocks(lists: Lists<Id>, cell: Cell)
    requires FIELD.grid.Has(cell)
    ensures Next(FIELD, Alone(lists, Erase(Away(true)), cell, false, map[]), Advance(7))
         == Some(Alone(lists, EraseLocked(Away(true)), cell, false, map[cell := 7]))
  {
    OnlyOne(Session(Erase(Away(true)), cell, false), Session(EraseLocked(Away(true)), cell, false));
  }

  lemma LeaveErases(lists: Lists<Id>, cell: Cell)
    ensures Next(FIELD, Alone(lists, EraseLocked(Away(true)), cell, false, map[cell := 7]), Advance(7))
         == Some(Alone(Erased(lists, cell, 7), EraseDone(Away(true)), cell, false, map[cell := 7]))
  {
    OnlyOne(Session(EraseLocked(Away(true)), cell, false), Session(EraseDone(Away(true)), cell, false));
  }

  lemma LeaveUnlocks(lists: Lists<Id>, cell: Cell)
    ensures Next(FIELD, Alone(lists, EraseDone(Away(true)), cell, false, map[cell := 7]), Advance(7))
         == Some(Alone(lists, Idle, cell, false, map[]))
  {
    OnlyOne(Session(EraseDone(Away(true)), cell, false), Session(Idle, cell, false));
    assert map[cell := 7] - {cell} == map[];
  }

  lemma LeaveRuns(lists: Lists<Id>, cell: Cell)
    requires FIELD.grid.Has(cell)
    ensures Run(FIELD, Alone(lists, Idle, cell, true, map[]), [BeginLeave(7)] + Moves(3))
         == Some(Alone(Erased(lists, cell, 7), Idle, cell, false, map[]))
  {
    var after := Erased(lists, cell, 7);
    var to := Alone(after, Idle, cell, false, map[]);
    LeaveUnlocks(after, cell);
    RunFirst(Alone(after, EraseDone(Away(true)), cell, false, map[cell := 7]), Advance(7), to, Moves(0), to);
    LeaveErases(lists, cell);
    RunFirst(Alone(lists, EraseLocked(Away(true)), cell, false, map[cell := 7]), Advance(7),
             Alone(after, EraseDone(Away(true)), cell, false, map[cell := 7]), Moves(1), to);
    LeaveLocks(lists, cell);
    RunFirst(Alone(lists, Erase(Away(true)), cell, false, map[]), Advance(7),
             Alone(lists, EraseLocked(Away(true)), cell, false, map[cell := 7]), Moves(2), to);
    LeaveBegins(lists, cell);
    RunFirst(Alone(lists, Idle, cell, true, map[]), BeginLeave(7),
             Alone(lists, Erase(Away(true)), cell, false, map[]), Moves(3), to);
  }

  lemma ListsAfter(here: seq<Id>, there: seq<Id>)
    ensures Appended(Lists2(here, there), HERE, 7) == Lists2(here + [7], there)
    ensures Appended(Lists2(here, there), THERE, 7) == Lists2(here, there + [7])
    ensures Erased(Lists2(here, there), THERE, 7) == Lists2(here, EraseFirst(there, 7))
  {
    assert HERE != THERE;
  }

  lemma JoinsOnce()
    ensures Init(FIELD, NOBODY) && Run(FIELD, NOBODY, [BeginJoin(7, HERE)] + Moves(4)) == Some(JOINED)
  {
    JoinRuns(Lists2([], []), HERE, false, HERE);
    ListsAfter([], []);
    assert [] + [7] == [7];
  }

  lemma JoinsThere()
    ensures Run(FIELD, JOINED, [BeginJoin(7, THERE)] + Moves(4)) == Some(IN_BOTH)
  {
    JoinRuns(Lists2([7], []), HERE, true, THERE);
    ListsAfter([7], []);
    assert [] + [7] == [7];
  }

  lemma JoinsHere()
    ensures Run(FIELD, JOINED, [BeginJoin(7, HERE)] + Moves(4)) == Some(TWICE_HERE)
  {
    JoinRuns(Lists2([7], []), HERE, true, HERE);
    ListsAfter([7], []);
    assert [7] + [7] == [7, 7];
  }

  lemma Closes()
    ensures Run(FIELD, IN_BOTH, [BeginLeave(7)] + Moves(3)) == Some(LEFT_BEHIND)
  {
    LeaveRuns(Lists2([7], [7]), THERE);
    ListsAfter([7], [7]);
    assert EraseFirst([7], 7) == [];
  }

  // A session whose character is created twice stands in two lists, or twice
  // in one, and is still in a list when it has been closed.
  lemma CreatedTwice()
    ensures Init(FIELD, NOBODY) && Run(FIELD, NOBODY, [BeginJoin(7, HERE)] + Moves(4)) == Some(JOINED)
    ensures Overlapping(FIELD, JOINED, BeginJoin(7, THERE)) && Overlapping(FIELD, JOINED, BeginJoin(7, HERE))
    ensures Run(FIELD, JOINED, [BeginJoin(7, THERE)] + Moves(4)) == Some(IN_BOTH)
    ensures Run(FIELD, JOINED, [BeginJoin(7, HERE)] + Moves(4)) == Some(TWICE_HERE)
    ensures !AtMostOnce(IN_BOTH.lists, 7) && !AtMostOnce(TWICE_HERE.lists, 7)
    ensures Run(FIELD, IN_BOTH, [BeginLeave(7)] + Moves(3)) == Some(LEFT_BEHIND)
    ensures !LEFT_BEHIND.sessions[7].registered && 7 in LEFT_BEHIND.lists[HERE]
  {
    JoinsOnce();
    JoinsThere();
    JoinsHere();
    InTwoPlaces();
    Closes();
  }

  lemma InTwoPlaces()
    ensures !AtMostOnce(IN_BOTH.lists, 7) && !AtMostOnce(TWICE_HERE.lists, 7)
  {
    assert Times(IN_BOTH.lists[HERE], 7) == 1 && Times(IN_BOTH.lists[THERE], 7) == 1;
    assert Times(TWICE_HERE.lists[HERE], 7) == 2;
  }
}
