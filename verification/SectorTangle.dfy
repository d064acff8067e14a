// Two runs of the multi-threaded chat server with the same beginning: a
// broadcast lowers the last count of one of those it sends to and runs that
// session's disconnect handler. In one the broadcast sends to somebody who has
// gone by the time it is finished; in the other two workers wait for each other
// for ever.
module SectorTangle {
  import opened SectorAlone
  import opened SectorGrid
  import opened SectorLocks
  import opened SectorProgress
  import opened Wrappers

  // A map of one cell and four players.
  const FIELD := Grid(1, 1, 1, 1)
  const HERE := Cell(0, 0)

  function Board(list: seq<Id>, keys: map<Key, Id>, a: Player, b: Player, c: Player, d: Player,
                 locks: map<Lock, Id>): State {
    State(map[HERE := list], keys, map[1 := a, 2 := b, 3 := c, 4 := d], locks)
  }

  const NEW := Player(HERE, false, None, Idle, None, [], [], [])

  function In(key: Key): Player {
    NEW.(indexed := true, key := Some(key))
  }

  const START := Board([], map[], NEW, NEW, NEW, NEW, map[])
  const ONE_IN := Board([1], map[11 := 1], In(11), NEW, NEW, NEW, map[])
  const TWO_IN := Board([1, 2], map[11 := 1, 12 := 2], In(11), In(12), NEW, NEW, map[])
  const THREE_IN := Board([1, 2, 3], map[11 := 1, 12 := 2, 13 := 3], In(11), In(12), In(13), NEW, map[])

  function Enter(p: Id, key: Key): seq<Event> {
    ([BeginLogin(p, key, Completed)] + Steps(p, 3)) + ([BeginJoin(p, HERE)] + Steps(p, 3))
  }

  lemma EnterAlone(st: State, p: Id, key: Key)
    requires st.locks == map[]
    ensures Run(FIELD, With(st, p, NEW), Enter(p, key))
         == Some(With(st.(lists := Appended(st.lists, HERE, p), keys := st.keys[key := p]), p, In(key)))
  {
    var mid := st.(keys := st.keys[key := p]);
    LoginAlone(FIELD, st, p, NEW, key, Completed);
    JoinAlone(FIELD, mid, p, NEW.(key := Some(key)), HERE);
    RunOn(FIELD, With(st, p, NEW), [BeginLogin(p, key, Completed)] + Steps(p, 3), With(mid, p, NEW.(key := Some(key))),
          [BeginJoin(p, HERE)] + Steps(p, 3),
          With(mid.(lists := Appended(st.lists, HERE, p)), p, In(key)));
  }

  const IN_HAND := map[Sector(HERE) := 1]

  // The broadcast of player 1.
  function Talk(stage: Stage, heard: seq<Id>, todo: seq<Id>): Player {
    In(11).(task := Busy(Broadcast(HERE), [Sector(HERE)], stage, None), heard := heard, todo := todo)
  }

  lemma OnlyCell(g: Grid, plan: seq<Lock>, c: Cell)
    requires g.width == g.height == 1 && c == Cell(0, 0) && PlanFor(g, Broadcast(c), plan)
    ensures plan == [Sector(c)]
  {
    assert plan[0] in plan && plan[|plan| - 1] in plan;
  }

  lemma TalkBegins(st: State)
    ensures Next(FIELD, With(st, 1, In(11)), BeginBroadcast(1)) == Some(With(st, 1, Talk(Locking(0), [], [])))
  {
    PlanOk(FIELD, Broadcast(HERE));
    OnlyCell(FIELD, Plan(FIELD, Broadcast(HERE)), HERE);
    OwnStep(FIELD, st, 1, In(11), BeginBroadcast(1), Only(Talk(Locking(0), [], [])));
  }

  lemma TalkLocks(st: State)
    requires st.locks == map[]
    ensures Next(FIELD, With(st, 1, Talk(Locking(0), [], [])), Advance(1))
         == Some(With(st.(locks := IN_HAND), 1, Talk(Working(0), [], [])))
  {
    OwnStep(FIELD, st, 1, Talk(Locking(0), [], []), Advance(1),
            Effect(Talk(Working(0), [], []), Keep, Acquire(Sector(HERE)), SameKeys));
  }

  lemma TalkOpens(st: State, list: seq<Id>)
    requires HERE in st.lists && st.lists[HERE] == list
    ensures Next(FIELD, With(st, 1, Talk(Working(0), [], [])), Advance(1))
         == Some(With(st, 1, Talk(Reading(0), [], list)))
  {
    OwnStep(FIELD, st, 1, Talk(Working(0), [], []), Advance(1), Only(Talk(Reading(0), [], list)));
  }

  lemma TalkSends(st: State, l: Player)
    requires l.task == Talk(Reading(0), [], []).task && l.inner == None
    ensures Next(FIELD, With(st, 1, l), Advance(1)) == Some(With(st, 1, Read(l, 0)))
  {
    OwnStep(FIELD, st, 1, l, Advance(1), Only(Read(l, 0)));
  }

  lemma BeginAndFour(g: Grid, p: Id, st: State, e: Event, a: State, b: State, c: State, d: State, to: State)
    requires Next(g, st, e) == Some(a) && Next(g, a, Advance(p)) == Some(b) && Next(g, b, Advance(p)) == Some(c)
    requires Next(g, c, Advance(p)) == Some(d) && Next(g, d, Advance(p)) == Some(to)
    ensures Run(g, st, [e] + Steps(p, 4)) == Some(to)
  {
    ThreeSteps(g, p, b, c, d, to);
    RunFirst(g, a, Advance(p), b, Steps(p, 3), to);
    RunFirst(g, st, e, a, Steps(p, 4), to);
  }

  // It has sent to two.
  lemma Talks(st: State, none: Player, one: Player, two: Player)
    requires st.locks == map[] && HERE in st.lists && none == Talk(Reading(0), [], st.lists[HERE])
    requires none.todo != [] && one == Read(none, 0) && one.todo != [] && two == Read(one, 0)
    ensures Run(FIELD, With(st, 1, In(11)), [BeginBroadcast(1)] + Steps(1, 4))
         == Some(With(st.(locks := IN_HAND), 1, two))
  {
    var held := st.(locks := IN_HAND);
    TalkBegins(st);
    TalkLocks(st);
    TalkOpens(held, st.lists[HERE]);
    TalkSends(held, none);
    TalkSends(held, one);
    BeginAndFour(FIELD, 1, With(st, 1, In(11)), BeginBroadcast(1), With(st, 1, Talk(Locking(0), [], [])),
                 With(held, 1, Talk(Working(0), [], [])), With(held, 1, none), With(held, 1, one), With(held, 1, two));
  }

  // ---- a broadcast that is no snapshot, and two workers that wait for each other ----------------------------

  lemma ThreeEnter()
    ensures Run(FIELD, START, Enter(1, 11) + Enter(2, 12) + Enter(3, 13)) == Some(THREE_IN)
  {
    EnterOne();
    EnterTwo();
    EnterThree();
    RunThree(FIELD, START, Enter(1, 11), ONE_IN, Enter(2, 12), TWO_IN, Enter(3, 13), THREE_IN);
  }

  lemma OneMoreHere(list: seq<Id>, p: Id, after: seq<Id>)
    requires after == list + [p]
    ensures Appended(map[HERE := list], HERE, p) == map[HERE := after]
  {
  }

  lemma EnterOne()
    ensures Run(FIELD, START, Enter(1, 11)) == Some(ONE_IN)
  {
    EnterAlone(START, 1, 11);
    assert With(START, 1, NEW) == START;
    OneMoreHere([], 1, [1]);
    assert With(START.(lists := Appended(START.lists, HERE, 1), keys := START.keys[11 := 1]), 1, In(11)) == ONE_IN;
  }

  lemma EnterTwo()
    ensures Run(FIELD, ONE_IN, Enter(2, 12)) == Some(TWO_IN)
  {
    EnterAlone(ONE_IN, 2, 12);
    assert With(ONE_IN, 2, NEW) == ONE_IN;
    OneMoreHere([1], 2, [1, 2]);
    assert With(ONE_IN.(lists := Appended(ONE_IN.lists, HERE, 2), keys := ONE_IN.keys[12 := 2]), 2, In(12)) == TWO_IN;
  }

  lemma EnterThree()
    ensures Run(FIELD, TWO_IN, Enter(3, 13)) == Some(THREE_IN)
  {
    EnterAlone(TWO_IN, 3, 13);
    assert With(TWO_IN, 3, NEW) == TWO_IN;
    OneMoreHere([1, 2], 3, [1, 2, 3]);
    assert With(TWO_IN.(lists := Appended(TWO_IN.lists, HERE, 3), keys := TWO_IN.keys[13 := 3]), 3, In(13)) == THREE_IN;
  }

  // Player 1 has sent to itself and to player 2, whose last count it lowered;
  // the handler has taken player 2 out of the list.
  const SPEAKER := Talk(Reading(0), [1, 2], [3])
  const LEAVING := Part(In(12), Delete(12), Keys, 1)
  const LEFT := Two(THREE_IN.(lists := map[HERE := [1, 3]], locks := IN_HAND),
                    1, SPEAKER.(inner := Some(2), dropped := [2]), 2, LEAVING)

  const SPEECH := [BeginBroadcast(1)] + Steps(1, 4)
  const DROPS := [Drop(1, 2)] + (Steps(2, 3) + Steps(2, 3))

  lemma Speaks()
    ensures Run(FIELD, THREE_IN, SPEECH) == Some(With(THREE_IN.(locks := IN_HAND), 1, SPEAKER))
  {
    var none, one := Talk(Reading(0), [], [1, 2, 3]), Talk(Reading(0), [1], [2, 3]);
    assert With(THREE_IN, 1, In(11)) == THREE_IN;
    assert [1, 2, 3][1..] == [2, 3] && [2, 3][1..] == [3];
    assert [] + [1] == [1] && [1] + [2] == [1, 2];
    assert Read(none, 0) == one && Read(one, 0) == SPEAKER;
    Talks(THREE_IN, none, one, SPEAKER);
  }

  lemma Drops()
    ensures Run(FIELD, With(THREE_IN.(locks := IN_HAND), 1, SPEAKER), DROPS) == Some(LEFT)
  {
    var st := THREE_IN.(locks := IN_HAND);
    assert Two(st, 1, SPEAKER, 2, In(12)) == With(st, 1, SPEAKER);
    assert SPEAKER.task.plan[0] in HeldSet(SPEAKER);
    TwoErased();
    assert SPEAKER.dropped + [2] == [2];
    DropAndLeave(FIELD, st, 1, SPEAKER, 2, In(12), 12);
  }

  lemma TwoErased()
    ensures ListsAfter(THREE_IN.lists, 2, EraseAt(HERE)) == map[HERE := [1, 3]]
  {
    assert EraseAll([3], 2) == [3];
    assert [1, 2, 3][1..] == [2, 3] && [2, 3][1..] == [3];
    assert EraseAll([2, 3], 2) == [3];
    assert EraseAll([1, 2, 3], 2) == [1] + EraseAll([2, 3], 2) == [1, 3];
  }

  const ENTRIES := Enter(1, 11) + Enter(2, 12) + Enter(3, 13)
  const SPEAKING := With(THREE_IN.(locks := IN_HAND), 1, SPEAKER)
  const OPENING := ENTRIES + SPEECH + DROPS

  lemma Opens()
    ensures Run(FIELD, START, OPENING) == Some(LEFT)
  {
    ThreeEnter();
    Speaks();
    Drops();
    OpensWith(ENTRIES, THREE_IN, SPEECH, SPEAKING, DROPS);
  }

  lemma OpensWith(entries: seq<Event>, inside: State, speech: seq<Event>, speaking: State, drops: seq<Event>)
    requires Run(FIELD, START, entries) == Some(inside) && Run(FIELD, inside, speech) == Some(speaking)
    requires Run(FIELD, speaking, drops) == Some(LEFT)
    ensures Run(FIELD, START, entries + speech + drops) == Some(LEFT)
  {
    RunThree(FIELD, START, entries, inside, speech, speaking, drops, LEFT);
  }

  lemma Starts()
    ensures Init(FIELD, START)
  {
  }

  // The handler has ended, and the broadcast has sent to player 3 too.
  const SENT := Two(THREE_IN.(lists := map[HERE := [1, 3]], keys := THREE_IN.keys - {12}, locks := IN_HAND),
                    1, Talk(Reading(0), [1, 2, 3], []).(dropped := [2]), 2, NEW)

  lemma Ends()
    ensures Run(FIELD, LEFT, Steps(2, 3) + Steps(1, 1)) == Some(SENT)
  {
    var st := THREE_IN.(lists := map[HERE := [1, 3]], locks := IN_HAND);
    var h, keys := SPEAKER.(inner := Some(2), dropped := [2]), THREE_IN.keys - {12};
    var mid := Two(st.(keys := keys), 1, SPEAKER.(dropped := [2]), 2, NEW);
    assert HeldSet(h) == {Sector(HERE)};
    InnerTask(FIELD, st, 1, h, 2, LEAVING, Delete(12), Keys);
    LastSend(st.(keys := keys));
    RunOn(FIELD, LEFT, Steps(2, 3), mid, Steps(1, 1), SENT);
  }

  lemma LastSend(st: State)
    ensures Run(FIELD, Two(st, 1, SPEAKER.(dropped := [2]), 2, NEW), Steps(1, 1))
         == Some(Two(st, 1, Talk(Reading(0), [1, 2, 3], []).(dropped := [2]), 2, NEW))
  {
    var before, after := SPEAKER.(dropped := [2]), Talk(Reading(0), [1, 2, 3], []).(dropped := [2]);
    var s := With(st, 2, NEW);
    assert Two(st, 1, before, 2, NEW) == With(s, 1, before) && Two(st, 1, after, 2, NEW) == With(s, 1, after);
    assert [1, 2] + [3] == [1, 2, 3] && [3][1..] == [];
    TalkSends(s, before);
    RunFirst(FIELD, With(s, 1, before), Advance(1), With(s, 1, after), Steps(1, 0), With(s, 1, after));
  }

  // The broadcast has reached player 2, who stands nowhere.
  lemma NoSnapshot()
    ensures Init(FIELD, START) && Run(FIELD, START, OPENING + (Steps(2, 3) + Steps(1, 1))) == Some(SENT)
    ensures SentToAll(SENT, 1) && Times(SENT.players[1].heard, 2) == 1 && Absent(SENT.lists, 2) && !Snapshot(SENT, 1)
  {
    SentReached();
    SentIs();
    SnapshotExactly(FIELD, SENT, 1);
  }

  lemma SentReached()
    ensures Init(FIELD, START) && Run(FIELD, START, OPENING + (Steps(2, 3) + Steps(1, 1))) == Some(SENT)
    ensures Reachable(FIELD, SENT)
  {
    Starts();
    Opens();
    Ends();
    RunOn(FIELD, START, OPENING, LEFT, Steps(2, 3) + Steps(1, 1), SENT);
  }

  lemma SentIs()
    ensures SentToAll(SENT, 1) && Times(SENT.players[1].heard, 2) == 1 && Absent(SENT.lists, 2)
    ensures SENT.players[1].dropped != []
  {
    assert Times([1, 2, 3], 2) == 1;
  }

  // Player 4 logs in with the key of player 3 and lowers its last count.
  const NEWER := NEW.(task := Busy(Login(13, Completed), [Keys], Working(0), None))
  const TANGLED := Two(LEFT.(locks := IN_HAND[Keys := 4]), 4, NEWER.(inner := Some(3)), 3, Handled(In(13), 4))
  const DISPLACES := ([BeginLogin(4, 13, Completed)] + Steps(4, 1)) + [Drop(4, 3)]

  lemma LoginHolds(st: State)
    requires Keys !in st.locks
    ensures Run(FIELD, With(st, 4, NEW), [BeginLogin(4, 13, Completed)] + Steps(4, 1))
         == Some(With(st.(locks := st.locks[Keys := 4]), 4, NEWER))
  {
    var begun := NEW.(task := Busy(Login(13, Completed), [Keys], Locking(0), None));
    var to := With(st.(locks := st.locks[Keys := 4]), 4, NEWER);
    OwnStep(FIELD, st, 4, NEW, BeginLogin(4, 13, Completed), Only(begun));
    OwnStep(FIELD, st, 4, begun, Advance(4), Effect(NEWER, Keep, Acquire(Keys), SameKeys));
    RunFirst(FIELD, With(st, 4, begun), Advance(4), to, Steps(4, 0), to);
    RunFirst(FIELD, With(st, 4, NEW), BeginLogin(4, 13, Completed), With(st, 4, begun), Steps(4, 1), to);
  }

  lemma LoginDrops(st: State)
    requires 3 in st.players && st.players[3] == In(13) && 13 in st.keys && st.keys[13] == 3
    ensures Next(FIELD, With(st, 4, NEWER), Drop(4, 3))
         == Some(Two(st, 4, NEWER.(inner := Some(3)), 3, Handled(In(13), 4)))
  {
    assert st.players[4 := NEWER][3 := In(13)] == st.players[4 := NEWER];
    DropStep(FIELD, st, 4, NEWER, 3, In(13));
  }

  lemma Displaces()
    ensures Run(FIELD, LEFT, DISPLACES) == Some(TANGLED)
  {
    var held := LEFT.(locks := IN_HAND[Keys := 4]);
    assert With(LEFT, 4, NEW) == LEFT;
    LoginHolds(LEFT);
    LoginDrops(held);
    RunFirst(FIELD, With(held, 4, NEWER), Drop(4, 3), TANGLED, [], TANGLED);
    RunOn(FIELD, LEFT, [BeginLogin(4, 13, Completed)] + Steps(4, 1), With(held, 4, NEWER), [Drop(4, 3)] + [], TANGLED);
    assert [Drop(4, 3)] + [] == [Drop(4, 3)];
  }

  lemma Tangled()
    ensures Knot(TANGLED, {1, 4}) && HandlerAtKeys(TANGLED, 1) && HandlerAtCell(TANGLED, 4)
  {
  }

  // The broadcast's worker holds the cell and waits for the key table, that of
  // the login holds the key table and waits for the cell: none of the four
  // players' work goes on, nor will it ever.
  lemma TwoWaitForEver(events: seq<Event>)
    requires Run(FIELD, TANGLED, events).Some?
    ensures Init(FIELD, START) && Run(FIELD, START, OPENING + DISPLACES) == Some(TANGLED)
    ensures Knot(TANGLED, {1, 4}) && Knot(Run(FIELD, TANGLED, events).value, {1, 4})
    ensures forall p :: p in TANGLED.players ==>
              TANGLED.players[p].task.Busy? && Next(FIELD, TANGLED, Advance(p)) == None
  {
    TangleReached();
    Tangled();
    NobodyGoesOn();
    KnotForEver(FIELD, TANGLED, events, {1, 4});
  }

  lemma TangleReached()
    ensures Init(FIELD, START) && Run(FIELD, START, OPENING + DISPLACES) == Some(TANGLED) && Inv(FIELD, TANGLED)
  {
    Starts();
    Opens();
    Displaces();
    RunOn(FIELD, START, OPENING, LEFT, DISPLACES, TANGLED);
    InitInv(FIELD, START);
    RunInv(FIELD, START, OPENING + DISPLACES);
  }

  lemma NobodyGoesOn()
    ensures forall p :: p in TANGLED.players ==>
              TANGLED.players[p].task.Busy? && Next(FIELD, TANGLED, Advance(p)) == None
  {
    forall p | p in TANGLED.players
      ensures TANGLED.players[p].task.Busy? && Next(FIELD, TANGLED, Advance(p)) == None
    {
      if p in {1, 4} {
        OutsideStays(p);
      } else {
        InsideStays(p);
      }
    }
  }

  lemma OutsideStays(p: Id)
    requires p in {1, 4}
    ensures p in TANGLED.players && TANGLED.players[p].task.Busy? && Next(FIELD, TANGLED, Advance(p)) == None
  {
  }

  lemma InsideStays(p: Id)
    requires p in {2, 3}
    ensures p in TANGLED.players && TANGLED.players[p].task.Busy? && Next(FIELD, TANGLED, Advance(p)) == None
  {
  }
}
