// What the messages of the multi-threaded chat server do when nobody disturbs
// them, from any state: moves, first placings, logins, disconnects, and a login
// that takes a key over from another session.
module SectorAlone {
  import opened SectorGrid
  import opened SectorLocks
  import opened Wrappers

  lemma {:induction false} RunOn(g: Grid, st: State, first: seq<Event>, mid: State, second: seq<Event>, to: State)
    requires Run(g, st, first) == Some(mid) && Run(g, mid, second) == Some(to)
    ensures Run(g, st, first + second) == Some(to)
    decreases |first|
  {
    if first == [] {
      assert first + second == second;
    } else {
      var e, rest := first[0], first[1..];
      var next := RunRest(g, st, first, mid);
      RunOn(g, next, rest, mid, second, to);
      RunFirst(g, st, e, next, rest + second, to);
      SplitSum(first, second);
    }
  }

  lemma RunThree(g: Grid, a: State, first: seq<Event>, b: State, second: seq<Event>, c: State, third: seq<Event>,
                 d: State)
    requires Run(g, a, first) == Some(b) && Run(g, b, second) == Some(c) && Run(g, c, third) == Some(d)
    ensures Run(g, a, first + second + third) == Some(d)
  {
    RunOn(g, a, first, b, second, c);
    RunOn(g, a, first + second, c, third, d);
  }

  lemma SplitSum(first: seq<Event>, second: seq<Event>)
    requires first != []
    ensures first + second == [first[0]] + (first[1..] + second)
  {
  }

  lemma RunAll(g: Grid, st: State, events: seq<Event>, next: State, to: State)
    requires events != [] && Next(g, st, events[0]) == Some(next) && Run(g, next, events[1..]) == Some(to)
    ensures Run(g, st, events) == Some(to)
  {
  }

  lemma RunRest(g: Grid, st: State, events: seq<Event>, to: State) returns (next: State)
    requires events != [] && Run(g, st, events) == Some(to)
    ensures Next(g, st, events[0]) == Some(next) && Run(g, next, events[1..]) == Some(to)
  {
    next := Next(g, st, events[0]).value;
  }

  lemma RunFirst(g: Grid, st: State, e: Event, next: State, events: seq<Event>, to: State)
    requires Next(g, st, e) == Some(next) && Run(g, next, events) == Some(to)
    ensures Run(g, st, [e] + events) == Some(to)
  {
    assert ([e] + events)[1..] == events;
    RunAll(g, st, [e] + events, next, to);
  }

  function Steps(p: Id, n: nat): seq<Event> {
    if n == 0 then [] else [Advance(p)] + Steps(p, n - 1)
  }

  lemma ThreeSteps(g: Grid, p: Id, a: State, b: State, c: State, d: State)
    requires Next(g, a, Advance(p)) == Some(b) && Next(g, b, Advance(p)) == Some(c) && Next(g, c, Advance(p)) == Some(d)
    ensures Run(g, a, Steps(p, 3)) == Some(d)
  {
    RunFirst(g, c, Advance(p), d, Steps(p, 0), d);
    RunFirst(g, b, Advance(p), c, Steps(p, 1), d);
    RunFirst(g, a, Advance(p), b, Steps(p, 2), d);
  }

  // The state in which player p is l and all else is as in st.
  function With(st: State, p: Id, l: Player): State {
    st.(players := st.players[p := l])
  }

  // A step of an operation that is not inside another.
  lemma OwnStep(g: Grid, st: State, p: Id, l: Player, e: Event, f: Effect)
    requires e.p == p && !e.Drop? && !Nested(l) && EffectOf(g, With(st, p, l), e) == Some(f)
    ensures Next(g, With(st, p, l), e)
         == Some(With(State(ListsAfter(st.lists, p, f.list), KeysAfter(st.keys, p, f.keys), st.players,
                            LocksAfter(st.locks, p, {}, f.lock)), p, f.next))
  {
    assert st.players[p := l][p := f.next] == st.players[p := f.next];
  }

  function Worked(st: State, p: Id, f: Effect): State {
    st.(lists := ListsAfter(st.lists, p, f.list), keys := KeysAfter(st.keys, p, f.keys))
  }

  // An operation that needs one lock and one piece of work and that nobody
  // disturbs, once it has started.
  lemma SmallTask(g: Grid, st: State, p: Id, l: Player, op: Op, lock: Lock)
    requires !op.Broadcast? && !op.Move? && lock !in st.locks && l.inner == None
    requires l.task == Busy(op, [lock], Locking(0), None)
    ensures Run(g, With(st, p, l), Steps(p, 3)) == Some(With(Worked(st, p, Work(l, 0, false, [])), p, Finished(l)))
  {
    var f := Work(l, 0, false, []);
    var held := st.(locks := st.locks[lock := p]);
    var done := Worked(held, p, f);
    var to := With(Worked(st, p, f), p, Finished(l));
    OwnStep(g, st, p, l, Advance(p), Effect(At(l, Working(0)), Keep, Acquire(lock), SameKeys));
    SmallWork(g, held, p, l, op, lock);
    OwnStep(g, done, p, At(l, Unlocking(0)), Advance(p), Effect(Finished(l), Keep, Release(lock), SameKeys));
    assert st.locks[lock := p] - {lock} == st.locks;
    ThreeSteps(g, p, With(st, p, l), With(held, p, At(l, Working(0))), With(done, p, At(l, Unlocking(0))), to);
  }

  lemma SmallWork(g: Grid, st: State, p: Id, l: Player, op: Op, lock: Lock)
    requires !op.Broadcast? && !op.Move? && l.inner == None && l.task == Busy(op, [lock], Locking(0), None)
    ensures Next(g, With(st, p, At(l, Working(0))), Advance(p))
         == Some(With(Worked(st, p, Work(l, 0, false, [])), p, At(l, Unlocking(0))))
  {
    OwnStep(g, st, p, At(l, Working(0)), Advance(p), Work(l, 0, false, []));
  }

  // The key table after a login: a refused one has only thrown out whoever had
  // the key.
  function KeysAfterLogin(keys: map<Key, Id>, p: Id, key: Key, outcome: Outcome): map<Key, Id> {
    if outcome == Refused then keys - {key} else keys[key := p]
  }

  // A login that nobody disturbs: only if it completes has the player a key.
  lemma LoginAlone(g: Grid, st: State, p: Id, l: Player, key: Key, outcome: Outcome)
    requires l.task == Idle && !l.indexed && l.key == None && l.inner == None && Keys !in st.locks
    ensures Run(g, With(st, p, l), [BeginLogin(p, key, outcome)] + Steps(p, 3))
         == Some(With(st.(keys := KeysAfterLogin(st.keys, p, key, outcome)), p,
                      l.(key := if outcome == Completed then Some(key) else None)))
  {
    var begun := l.(task := Start(g, Login(key, outcome)));
    var to := With(st.(keys := KeysAfterLogin(st.keys, p, key, outcome)), p,
                   l.(key := if outcome == Completed then Some(key) else None));
    OwnStep(g, st, p, l, BeginLogin(p, key, outcome), Only(begun));
    SmallTask(g, st, p, begun, Login(key, outcome), Keys);
    RunFirst(g, With(st, p, l), BeginLogin(p, key, outcome), With(st, p, begun), Steps(p, 3), to);
  }

  // A first placing that nobody disturbs.
  lemma JoinAlone(g: Grid, st: State, p: Id, l: Player, c: Cell)
    requires l.task == Idle && !l.indexed && l.key.Some? && l.inner == None && Sector(c) !in st.locks && g.Has(c)
    ensures Run(g, With(st, p, l), [BeginJoin(p, c)] + Steps(p, 3))
         == Some(With(st.(lists := Appended(st.lists, c, p)), p, l.(cell := c, indexed := true)))
  {
    var begun := l.(cell := c, indexed := true, task := Start(g, Join(c)));
    OwnStep(g, st, p, l, BeginJoin(p, c), Only(begun));
    SmallTask(g, st, p, begun, Join(c), Sector(c));
    RunFirst(g, With(st, p, l), BeginJoin(p, c), With(st, p, begun), Steps(p, 3),
             With(st.(lists := Appended(st.lists, c, p)), p, l.(cell := c, indexed := true)));
  }

  // The lists when p has been taken out of one and put at the end of another.
  function MovedLists(lists: Lists<Id>, p: Id, source: Cell, target: Cell): Lists<Id>
    requires source in lists
  {
    Appended(lists[source := EraseAll(lists[source], p)], target, p)
  }

  // A move that nobody disturbs: the player has left the list of its sector and
  // stands at the end of the target's; all locks are as they were.
  lemma MoveAlone(g: Grid, st: State, p: Id, l: Player, target: Cell)
    requires l.task == Idle && l.indexed && l.inner == None && g.Has(target) && target != l.cell
    requires Sector(l.cell) !in st.locks && Sector(target) !in st.locks
    requires l.cell in st.lists && p in st.lists[l.cell]
    ensures Run(g, With(st, p, l), [BeginMove(p, target)] + (Steps(p, 3) + Steps(p, 3)))
         == Some(With(st.(lists := MovedLists(st.lists, p, l.cell, target)), p, l.(cell := target)))
  {
    var a, b := MovePlan(g, l.cell, target);
    var begun := l.(cell := target, task := Busy(Move(l.cell, target), [a, b], Locking(0), None));
    var to := With(st.(lists := MovedLists(st.lists, p, l.cell, target)), p, l.(cell := target));
    OwnStep(g, st, p, l, BeginMove(p, target), Only(begun));
    BegunMove(g, st, p, begun, l.cell, target, a, b);
    RunFirst(g, With(st, p, l), BeginMove(p, target), With(st, p, begun), Steps(p, 3) + Steps(p, 3), to);
  }

  lemma MovePlan(g: Grid, source: Cell, target: Cell) returns (a: Lock, b: Lock)
    requires source != target
    ensures Plan(g, Move(source, target)) == [a, b] && a != b
    ensures a in {Sector(source), Sector(target)} && b in {Sector(source), Sector(target)}
  {
    a, b := Sector(LockOrder(source, target)[0]), Sector(LockOrder(source, target)[1]);
  }

  lemma BegunMove(g: Grid, st: State, p: Id, l: Player, source: Cell, target: Cell, a: Lock, b: Lock)
    requires l.task == Busy(Move(source, target), [a, b], Locking(0), None) && l.inner == None
    requires a != b && a !in st.locks && b !in st.locks && source in st.lists && p in st.lists[source]
    ensures Run(g, With(st, p, l), Steps(p, 3) + Steps(p, 3))
         == Some(With(st.(lists := MovedLists(st.lists, p, source, target)), p, l.(task := Idle)))
  {
    var erased := st.(lists := st.lists[source := EraseAll(st.lists[source], p)], locks := st.locks[a := p][b := p]);
    MoveErases(g, st, p, l, source, target, a, b);
    MoveAppends(g, erased, p, At(l, Working(1)), source, target, a, b);
    assert erased.locks - {a} - {b} == st.locks;
    RunOn(g, With(st, p, l), Steps(p, 3), With(erased, p, At(l, Working(1))), Steps(p, 3),
          With(st.(lists := MovedLists(st.lists, p, source, target)), p, l.(task := Idle)));
  }

  // Both locks, and out of the list.
  lemma MoveErases(g: Grid, st: State, p: Id, l: Player, source: Cell, target: Cell, a: Lock, b: Lock)
    requires l.task == Busy(Move(source, target), [a, b], Locking(0), None) && l.inner == None
    requires a != b && a !in st.locks && b !in st.locks && source in st.lists && p in st.lists[source]
    ensures Run(g, With(st, p, l), Steps(p, 3))
         == Some(With(st.(lists := st.lists[source := EraseAll(st.lists[source], p)],
                          locks := st.locks[a := p][b := p]), p, At(l, Working(1))))
  {
    var s1, s2 := st.(locks := st.locks[a := p]), st.(locks := st.locks[a := p][b := p]);
    var s3 := s2.(lists := st.lists[source := EraseAll(st.lists[source], p)]);
    OwnStep(g, st, p, l, Advance(p), Effect(At(l, Locking(1)), Keep, Acquire(a), SameKeys));
    OwnStep(g, s1, p, At(l, Locking(1)), Advance(p), Effect(At(l, Working(0)), Keep, Acquire(b), SameKeys));
    OwnStep(g, s2, p, At(l, Working(0)), Advance(p), Effect(At(l, Working(1)), EraseAt(source), NoLock, SameKeys));
    ThreeSteps(g, p, With(st, p, l), With(s1, p, At(l, Locking(1))), With(s2, p, At(l, Working(0))),
               With(s3, p, At(l, Working(1))));
  }

  // Into the other list, and both locks back.
  lemma MoveAppends(g: Grid, st: State, p: Id, l: Player, source: Cell, target: Cell, a: Lock, b: Lock)
    requires l.task == Busy(Move(source, target), [a, b], Working(1), None) && l.inner == None
    ensures Run(g, With(st, p, l), Steps(p, 3))
         == Some(With(st.(lists := Appended(st.lists, target, p), locks := st.locks - {a} - {b}), p,
                      l.(task := Idle)))
  {
    var s1 := st.(lists := Appended(st.lists, target, p));
    var s2, s3 := s1.(locks := st.locks - {a}), s1.(locks := st.locks - {a} - {b});
    OwnStep(g, st, p, l, Advance(p), Effect(At(l, Unlocking(0)), AppendAt(target), NoLock, SameKeys));
    OwnStep(g, s1, p, At(l, Unlocking(0)), Advance(p), Effect(At(l, Unlocking(1)), Keep, Release(a), SameKeys));
    OwnStep(g, s2, p, At(l, Unlocking(1)), Advance(p), Effect(l.(task := Idle), Keep, Release(b), SameKeys));
    ThreeSteps(g, p, With(st, p, l), With(s1, p, At(l, Unlocking(0))), With(s2, p, At(l, Unlocking(1))),
               With(s3, p, l.(task := Idle)));
  }

  // A disconnect that nobody disturbs: a placed player is in no list any more
  // and its key is gone.
  lemma LeaveAlone(g: Grid, st: State, p: Id, l: Player, key: Key)
    requires l.task == Idle && l.indexed && l.inner == None && l.key == Some(key) && l.cell in st.lists
    requires Sector(l.cell) !in st.locks && Keys !in st.locks
    ensures Run(g, With(st, p, l), [BeginLeave(p)] + (Steps(p, 3) + Steps(p, 3) + Steps(p, 3)))
         == Some(With(st.(lists := st.lists[l.cell := EraseAll(st.lists[l.cell], p)], keys := st.keys - {key}), p,
                      l.(indexed := false, key := None)))
  {
    var c := l.cell;
    var checks := l.(task := Busy(Check(c), [Sector(c)], Locking(0), None));
    var leaves := l.(task := Busy(Leave(c), [Sector(c)], Locking(0), None));
    var deletes := l.(task := Busy(Delete(key), [Keys], Locking(0), None));
    var erased := st.(lists := st.lists[c := EraseAll(st.lists[c], p)]);
    var to := With(erased.(keys := st.keys - {key}), p, l.(indexed := false, key := None));
    OwnStep(g, st, p, l, BeginLeave(p), Only(checks));
    SmallTask(g, st, p, checks, Check(c), Sector(c));
    LeaveTask(g, st, p, leaves, c);
    DeleteTask(g, erased, p, deletes, key);
    RunThree(g, With(st, p, checks), Steps(p, 3), With(st, p, leaves), Steps(p, 3), With(erased, p, deletes),
             Steps(p, 3), to);
    RunFirst(g, With(st, p, l), BeginLeave(p), With(st, p, checks), Steps(p, 3) + Steps(p, 3) + Steps(p, 3), to);
  }

  lemma LeaveTask(g: Grid, st: State, p: Id, l: Player, c: Cell)
    requires l.task == Busy(Leave(c), [Sector(c)], Locking(0), None) && l.inner == None && l.key.Some?
    requires Sector(c) !in st.locks && c in st.lists
    ensures Run(g, With(st, p, l), Steps(p, 3))
         == Some(With(st.(lists := st.lists[c := EraseAll(st.lists[c], p)]), p,
                      l.(task := Busy(Delete(l.key.value), [Keys], Locking(0), None))))
  {
    SmallTask(g, st, p, l, Leave(c), Sector(c));
  }

  lemma DeleteTask(g: Grid, st: State, p: Id, l: Player, key: Key)
    requires l.task == Busy(Delete(key), [Keys], Locking(0), None) && l.inner == None && Keys !in st.locks
    ensures Run(g, With(st, p, l), Steps(p, 3))
         == Some(With(st.(keys := st.keys - {key}), p, l.(task := Idle, indexed := false, key := None)))
  {
    SmallTask(g, st, p, l, Delete(key), Keys);
  }

  // Of a player that was not placed, only the player forgets the key; the table
  // keeps it.
  lemma UnplacedLeaves(g: Grid, st: State, p: Id, l: Player)
    requires l.task == Idle && !l.indexed && l.inner == None
    ensures Next(g, With(st, p, l), BeginLeave(p)) == Some(With(st, p, l.(key := None)))
  {
    OwnStep(g, st, p, l, BeginLeave(p), Only(l.(key := None)));
  }

  // The same with two players, one of them inside the operation of the other.
  function Two(st: State, p: Id, h: Player, q: Id, l: Player): State {
    With(With(st, p, h), q, l)
  }

  lemma InnerStep(g: Grid, st: State, p: Id, h: Player, q: Id, l: Player, f: Effect)
    requires p != q && Nested(l) && l.task.under == Some(p) && NextStep(Two(st, p, h, q, l), q) == Some(f)
    ensures Next(g, Two(st, p, h, q, l), Advance(q))
         == Some(Two(State(ListsAfter(st.lists, q, f.list), KeysAfter(st.keys, q, f.keys), st.players,
                           LocksAfter(st.locks, p, HeldSet(h), f.lock)), p, HostAfter(h, q, f), q, f.next))
  {
    assert st.players[p := h][q := l][q := f.next][p := HostAfter(h, q, f)]
        == st.players[p := HostAfter(h, q, f)][q := f.next];
  }

  // What the operation around notices of one of the handler's three parts.
  function HostDone(h: Player, q: Id, op: Op): Player {
    h.(inner := if op.Delete? then None else h.inner, dropped := if op.Leave? then h.dropped + [q] else h.dropped)
  }

  // The locks of the part: held by the operation around it, or by nobody.
  predicate Ready(st: State, p: Id, h: Player, lock: Lock) {
    if lock in HeldSet(h) then lock in st.locks && st.locks[lock] == p else lock !in st.locks
  }

  lemma InnerLocks(g: Grid, st: State, p: Id, h: Player, q: Id, l: Player, op: Op, lock: Lock)
    requires p != q && l.inner == None && l.task == Busy(op, [lock], Locking(0), Some(p)) && Ready(st, p, h, lock)
    ensures Next(g, Two(st, p, h, q, l), Advance(q))
         == Some(Two(st.(locks := st.locks[lock := p]), p, HostAfter(h, q, Only(l)), q, At(l, Working(0))))
  {
    InnerStep(g, st, p, h, q, l, Effect(At(l, Working(0)), Keep, Acquire(lock), SameKeys));
  }

  lemma InnerWorks(g: Grid, st: State, p: Id, h: Player, q: Id, l: Player, op: Op, lock: Lock)
    requires p != q && l.inner == None && l.task == Busy(op, [lock], Working(0), Some(p)) && op.Departs()
    ensures Next(g, Two(st, p, h, q, l), Advance(q))
         == Some(Two(Worked(st, q, Work(l, 0, false, [])), p, HostAfter(h, q, Work(l, 0, false, [])),
                     q, At(l, Unlocking(0))))
  {
    InnerStep(g, st, p, h, q, l, Work(l, 0, false, []));
  }

  lemma InnerUnlocks(g: Grid, st: State, p: Id, h: Player, q: Id, l: Player, op: Op, lock: Lock)
    requires p != q && l.inner == None && l.task == Busy(op, [lock], Unlocking(0), Some(p)) && Ready(st, p, h, lock)
    ensures Next(g, Two(st.(locks := st.locks[lock := p]), p, h, q, l), Advance(q))
         == Some(Two(st, p, HostAfter(h, q, Only(Finished(l))), q, Finished(l)))
  {
    InnerStep(g, st.(locks := st.locks[lock := p]), p, h, q, l, Effect(Finished(l), Keep, Release(lock), SameKeys));
    assert LocksAfter(st.locks[lock := p], p, HeldSet(h), Release(lock)) == st.locks;
  }

  // One of the three parts.
  lemma InnerTask(g: Grid, st: State, p: Id, h: Player, q: Id, l: Player, op: Op, lock: Lock)
    requires p != q && op.Departs() && l.inner == None && h.inner == Some(q)
    requires l.task == Busy(op, [lock], Locking(0), Some(p)) && Ready(st, p, h, lock)
    ensures Run(g, Two(st, p, h, q, l), Steps(q, 3))
         == Some(Two(Worked(st, q, Work(l, 0, false, [])), p, HostDone(h, q, op), q, Finished(l)))
  {
    var f := Work(l, 0, false, []);
    var held, done := st.(locks := st.locks[lock := p]), Worked(st, q, f);
    var h' := HostAfter(h, q, f);
    InnerLocks(g, st, p, h, q, l, op, lock);
    InnerWorks(g, held, p, h, q, At(l, Working(0)), op, lock);
    HostKeepsLocks(h, q, f);
    InnerUnlocks(g, done, p, h', q, At(l, Unlocking(0)), op, lock);
    HostNotices(h, q, l, op);
    ThreeSteps(g, q, Two(st, p, h, q, l), Two(held, p, h, q, At(l, Working(0))),
               Two(done.(locks := held.locks), p, h', q, At(l, Unlocking(0))),
               Two(done, p, HostDone(h, q, op), q, Finished(l)));
  }

  lemma HostNotices(h: Player, q: Id, l: Player, op: Op)
    requires op.Departs() && h.inner == Some(q) && l.task.Busy? && l.task.op == op && l.task.stage == Locking(0)
    ensures HostAfter(h, q, Only(l)) == h
    ensures HostAfter(HostAfter(h, q, Work(l, 0, false, [])), q, Only(Finished(l))) == HostDone(h, q, op)
    ensures Finished(At(l, Unlocking(0))) == Finished(l)
    ensures Work(At(l, Working(0)), 0, false, []) == Work(l, 0, false, [])
  {
  }

  lemma DropStep(g: Grid, st: State, p: Id, h: Player, q: Id, l: Player)
    requires p != q && CanDrop(Two(st, p, h, q, l), p, q)
    ensures Next(g, Two(st, p, h, q, l), Drop(p, q)) == Some(Two(st, p, h.(inner := Some(q)), q, Handled(l, p)))
  {
    assert st.players[p := h][q := l][p := h.(inner := Some(q))][q := Handled(l, p)]
        == st.players[p := h.(inner := Some(q))][q := Handled(l, p)];
  }

  function Part(l: Player, op: Op, lock: Lock, p: Id): Player {
    l.(task := Busy(op, [lock], Locking(0), Some(p)))
  }

  // The handler inside a broadcast has taken its player out of the list and
  // comes to the key table.
  lemma DropAndLeave(g: Grid, st: State, p: Id, h: Player, q: Id, l: Player, key: Key)
    requires p != q && CanDrop(Two(st, p, h, q, l), p, q) && l.inner == None && l.key == Some(key)
    requires Sector(l.cell) in HeldSet(h) && Sector(l.cell) in st.locks && st.locks[Sector(l.cell)] == p
    ensures Run(g, Two(st, p, h, q, l), [Drop(p, q)] + (Steps(q, 3) + Steps(q, 3)))
         == Some(Two(st.(lists := ListsAfter(st.lists, q, EraseAt(l.cell))),
                     p, h.(inner := Some(q), dropped := h.dropped + [q]), q, Part(l, Delete(key), Keys, p)))
  {
    var c, host := l.cell, h.(inner := Some(q));
    var checks, leaves := Part(l, Check(c), Sector(c), p), Part(l, Leave(c), Sector(c), p);
    var to := Two(st.(lists := ListsAfter(st.lists, q, EraseAt(c))),
                  p, host.(dropped := h.dropped + [q]), q, Part(l, Delete(key), Keys, p));
    DropStep(g, st, p, h, q, l);
    InnerTask(g, st, p, host, q, checks, Check(c), Sector(c));
    InnerTask(g, st, p, host, q, leaves, Leave(c), Sector(c));
    RunOn(g, Two(st, p, host, q, checks), Steps(q, 3), Two(st, p, host, q, leaves), Steps(q, 3), to);
    RunFirst(g, Two(st, p, h, q, l), Drop(p, q), Two(st, p, host, q, checks), Steps(q, 3) + Steps(q, 3), to);
  }

  // A login that finds another player under its key and lowers that session's
  // last count runs its disconnect handler to the end: the other player is in
  // no list any more, its key is gone, and the key belongs to the new one.
  lemma TakesOver(g: Grid, st: State, p: Id, h: Player, q: Id, l: Player, key: Key, former: Key)
    requires p != q && h.task == Idle && !h.indexed && h.key == None && h.inner == None
    requires l.task == Idle && l.indexed && l.inner == None && l.key == Some(former) && l.cell in st.lists
    requires key in st.keys && st.keys[key] == q && Keys !in st.locks && Sector(l.cell) !in st.locks
    ensures Run(g, Two(st, p, h, q, l), ([BeginLogin(p, key, Completed)] + Steps(p, 1))
                                        + ([Drop(p, q)] + (Steps(q, 3) + Steps(q, 3) + Steps(q, 3))) + Steps(p, 2))
         == Some(Two(st.(lists := st.lists[l.cell := EraseAll(st.lists[l.cell], q)],
                         keys := (st.keys - {former})[key := p]),
                     p, h.(key := Some(key), dropped := h.dropped + [q]), q, l.(indexed := false, key := None)))
  {
    var held := st.(locks := st.locks[Keys := p]);
    var host := h.(task := Busy(Login(key, Completed), [Keys], Working(0), None));
    var done := st.(lists := st.lists[l.cell := EraseAll(st.lists[l.cell], q)], keys := st.keys - {former});
    var after, gone := host.(dropped := h.dropped + [q]), l.(indexed := false, key := None);
    TakerLocks(g, st, p, h, q, l, key);
    HandlerRuns(g, held, p, host, q, l, former);
    TakerEnds(g, done, p, after, q, gone, key);
    RunThree(g, Two(st, p, h, q, l), [BeginLogin(p, key, Completed)] + Steps(p, 1), Two(held, p, host, q, l),
             [Drop(p, q)] + (Steps(q, 3) + Steps(q, 3) + Steps(q, 3)),
             Two(done.(locks := held.locks), p, after, q, gone), Steps(p, 2),
             Two(done.(keys := done.keys[key := p]), p, h.(key := Some(key), dropped := h.dropped + [q]), q, gone));
  }

  lemma Swapped(st: State, p: Id, h: Player, q: Id, l: Player)
    requires p != q
    ensures Two(st, p, h, q, l) == With(With(st, q, l), p, h)
  {
    assert st.players[p := h][q := l] == st.players[q := l][p := h];
  }

  lemma TakerLocks(g: Grid, st: State, p: Id, h: Player, q: Id, l: Player, key: Key)
    requires p != q && h.task == Idle && !h.indexed && h.key == None && h.inner == None && Keys !in st.locks
    ensures Run(g, Two(st, p, h, q, l), [BeginLogin(p, key, Completed)] + Steps(p, 1))
         == Some(Two(st.(locks := st.locks[Keys := p]), p,
                     h.(task := Busy(Login(key, Completed), [Keys], Working(0), None)), q, l))
  {
    var s := With(st, q, l);
    var begun := h.(task := Busy(Login(key, Completed), [Keys], Locking(0), None));
    var to := With(s.(locks := s.locks[Keys := p]), p, At(begun, Working(0)));
    Swapped(st, p, h, q, l);
    Swapped(st.(locks := st.locks[Keys := p]), p, At(begun, Working(0)), q, l);
    OwnStep(g, s, p, h, BeginLogin(p, key, Completed), Only(begun));
    OwnStep(g, s, p, begun, Advance(p), Effect(At(begun, Working(0)), Keep, Acquire(Keys), SameKeys));
    RunFirst(g, With(s, p, begun), Advance(p), to, Steps(p, 0), to);
    RunFirst(g, With(s, p, h), BeginLogin(p, key, Completed), With(s, p, begun), Steps(p, 1), to);
  }

  // The three parts of the handler inside the login.
  lemma HandlerRuns(g: Grid, st: State, p: Id, h: Player, q: Id, l: Player, key: Key)
    requires p != q && CanDrop(Two(st, p, h, q, l), p, q) && l.inner == None && l.key == Some(key) && l.cell in st.lists
    requires h.inner == None && h.task.Busy? && h.task.op.Login? && h.task.plan == [Keys] && h.task.stage == Working(0)
    requires Keys in st.locks && st.locks[Keys] == p && Sector(l.cell) !in st.locks
    ensures Run(g, Two(st, p, h, q, l), [Drop(p, q)] + (Steps(q, 3) + Steps(q, 3) + Steps(q, 3)))
         == Some(Two(st.(lists := st.lists[l.cell := EraseAll(st.lists[l.cell], q)], keys := st.keys - {key}),
                     p, h.(dropped := h.dropped + [q]), q, l.(task := Idle, indexed := false, key := None)))
  {
    var c := l.cell;
    var to := Two(st.(lists := st.lists[c := EraseAll(st.lists[c], q)], keys := st.keys - {key}), p,
                  h.(dropped := h.dropped + [q]), q, l.(task := Idle, indexed := false, key := None));
    DropStep(g, st, p, h, q, l);
    PartsRun(g, st, p, h.(inner := Some(q)), q, l, key);
    RunFirst(g, Two(st, p, h, q, l), Drop(p, q),
             Two(st, p, h.(inner := Some(q)), q, Part(l, Check(c), Sector(c), p)),
             Steps(q, 3) + Steps(q, 3) + Steps(q, 3), to);
  }

  lemma PartsRun(g: Grid, st: State, p: Id, host: Player, q: Id, l: Player, key: Key)
    requires p != q && l.inner == None && l.key == Some(key) && l.cell in st.lists
    requires host.inner == Some(q) && host.task.Busy? && host.task.plan == [Keys] && host.task.stage == Working(0)
    requires Keys in st.locks && st.locks[Keys] == p && Sector(l.cell) !in st.locks
    ensures Run(g, Two(st, p, host, q, Part(l, Check(l.cell), Sector(l.cell), p)),
                Steps(q, 3) + Steps(q, 3) + Steps(q, 3))
         == Some(Two(st.(lists := st.lists[l.cell := EraseAll(st.lists[l.cell], q)], keys := st.keys - {key}),
                     p, host.(inner := None, dropped := host.dropped + [q]), q,
                     l.(task := Idle, indexed := false, key := None)))
  {
    var c, after := l.cell, host.(dropped := host.dropped + [q]);
    var checks, leaves := Part(l, Check(c), Sector(c), p), Part(l, Leave(c), Sector(c), p);
    var deletes := Part(l, Delete(key), Keys, p);
    var erased := st.(lists := st.lists[c := EraseAll(st.lists[c], q)]);
    var to := Two(erased.(keys := st.keys - {key}), p, after.(inner := None), q,
                  l.(task := Idle, indexed := false, key := None));
    assert HeldSet(host) == HeldSet(after) == {Keys};
    InnerTask(g, st, p, host, q, checks, Check(c), Sector(c));
    InnerTask(g, st, p, host, q, leaves, Leave(c), Sector(c));
    InnerTask(g, erased, p, after, q, deletes, Delete(key), Keys);
    RunThree(g, Two(st, p, host, q, checks), Steps(q, 3), Two(st, p, host, q, leaves), Steps(q, 3),
             Two(erased, p, after, q, deletes), Steps(q, 3), to);
  }

  lemma TakerEnds(g: Grid, st: State, p: Id, h: Player, q: Id, l: Player, key: Key)
    requires p != q && h.task == Busy(Login(key, Completed), [Keys], Working(0), None) && h.inner == None
    requires Keys !in st.locks
    ensures Run(g, Two(st.(locks := st.locks[Keys := p]), p, h, q, l), Steps(p, 2))
         == Some(Two(st.(keys := st.keys[key := p]), p, h.(task := Idle, key := Some(key)), q, l))
  {
    var held := st.(locks := st.locks[Keys := p]);
    var s, done := With(held, q, l), With(held.(keys := st.keys[key := p]), q, l);
    var to := With(done.(locks := st.locks), p, h.(task := Idle, key := Some(key)));
    Swapped(held, p, h, q, l);
    Swapped(st.(keys := st.keys[key := p]), p, h.(task := Idle, key := Some(key)), q, l);
    OwnStep(g, s, p, h, Advance(p), Effect(At(h, Unlocking(0)), Keep, NoLock, Insert(key)));
    OwnStep(g, done, p, At(h, Unlocking(0)), Advance(p),
            Effect(h.(task := Idle, key := Some(key)), Keep, Release(Keys), SameKeys));
    assert st.locks[Keys := p] - {Keys} == st.locks;
    RunFirst(g, With(done, p, At(h, Unlocking(0))), Advance(p), to, Steps(p, 0), to);
    RunFirst(g, With(s, p, h), Advance(p), With(done, p, At(h, Unlocking(0))), Steps(p, 1), to);
  }
}
