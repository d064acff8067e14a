// The login server's user slots. A session's slot is named by the top 16 bits
// of its id; slots are used again, and the disconnect of an old session may
// reach the table after the slot has been given to a new one.
module UserTables {
  const DWORD_RANGE := 0x1_0000_0000
  const INDEX_UNIT := 0x1_0000_0000_0000

  type SessionId = id: nat | id < 0x1_0000_0000_0000_0000

  // CWanManager::GetIndex and GetID.
  function IndexOf(id: SessionId): (index: nat)
    ensures index < 65536
  {
    id / INDEX_UNIT
  }

  // The top 16 bits.
  lemma IndexIsTheTop(index: nat, rest: nat)
    requires index < 0x1_0000 && rest < 0x1_0000_0000_0000
    ensures IndexOf(index * 0x1_0000_0000_0000 + rest) == index
  {
  }

  datatype User = User(alive: bool, timeOut: nat, sessionID: SessionId)

  const EMPTY := User(false, 0, 0)

  // ---- the two operations on the slots --------------------------------------------------

  function SlotsAfterInit(slots: seq<User>, id: SessionId, now: nat): seq<User>
    requires IndexOf(id) < |slots|
  {
    slots[IndexOf(id) := User(true, now, id)]
  }

  predicate Occupies(slots: seq<User>, id: SessionId)
    requires IndexOf(id) < |slots|
  {
    slots[IndexOf(id)].sessionID == id
  }

  function SlotsAfterDelete(slots: seq<User>, id: SessionId): seq<User>
    requires IndexOf(id) < |slots|
  {
    if Occupies(slots, id) then slots[IndexOf(id) := EMPTY] else slots
  }

  // InterlockedIncrement and InterlockedDecrement of a DWORD.
  function Up(count: nat): nat {
    (count + 1) % DWORD_RANGE
  }

  function Down(count: nat): nat {
    (count + DWORD_RANGE - 1) % DWORD_RANGE
  }

  class CUserManager {
    const userArr: array<User>
    var currentUserCount: nat

    constructor (userMaxCount: nat)
      ensures fresh(userArr) && userArr.Length == userMaxCount && currentUserCount == 0
      ensures userArr[..] == seq(userMaxCount, i => EMPTY)
    {
      userArr := new User[userMaxCount](i => EMPTY);
      currentUserCount := 0;
    }

    method InitUser(sessionID: SessionId, now: nat) returns (ok: bool)
      requires IndexOf(sessionID) < userArr.Length
      modifies this, userArr
      ensures ok
      ensures userArr[..] == SlotsAfterInit(old(userArr[..]), sessionID, now)
      ensures currentUserCount == Up(old(currentUserCount))
    {
      var userIndex := IndexOf(sessionID);
      userArr[userIndex] := User(true, now, sessionID);
      currentUserCount := Up(currentUserCount);
      ok := true;
    }

    method DeleteUser(sessionID: SessionId) returns (ok: bool)
      requires IndexOf(sessionID) < userArr.Length
      modifies this, userArr
      ensures ok == Occupies(old(userArr[..]), sessionID)
      ensures userArr[..] == SlotsAfterDelete(old(userArr[..]), sessionID)
      ensures currentUserCount == Down(old(currentUserCount))
    {
      var userIndex := IndexOf(sessionID);
      currentUserCount := Down(currentUserCount);
      if userArr[userIndex].sessionID != sessionID {
        return false;
      }
      userArr[userIndex] := EMPTY;
      ok := true;
    }
  }

  // ---- whole runs ----------------------------------------------------------------------------

  datatype Event = Init(id: SessionId, now: nat) | Delete(id: SessionId)

  // outstanding: initialised and not yet deleted; last: the session each slot
  // was last given to.
  datatype Pool = Pool(slots: seq<User>, count: nat, outstanding: set<SessionId>, seen: set<SessionId>,
                       last: map<nat, SessionId>)

  // Ids are not zero, fit the array, are initialised once and then deleted at
  // most once.
  predicate Enabled(p: Pool, e: Event) {
    e.id != 0 && IndexOf(e.id) < |p.slots|
    && match e
       case Init(id, _) => id !in p.seen
       case Delete(id) => id in p.outstanding
  }

  function Next(p: Pool, e: Event): Pool
    requires Enabled(p, e)
  {
    match e
    case Init(id, now) =>
      Pool(SlotsAfterInit(p.slots, id, now), Up(p.count), p.outstanding + {id}, p.seen + {id},
           p.last[IndexOf(id) := id])
    case Delete(id) =>
      p.(slots := SlotsAfterDelete(p.slots, id), count := Down(p.count), outstanding := p.outstanding - {id})
  }

  function Start(n: nat): Pool {
    Pool(seq(n, i => EMPTY), 0, {}, {}, map[])
  }

  ghost predicate Possible(p: Pool, events: seq<Event>)
    decreases |events|
  {
    events == [] || (Enabled(p, events[0]) && Possible(Next(p, events[0]), events[1..]))
  }

  function Run(p: Pool, events: seq<Event>): Pool
    requires Possible(p, events)
    decreases |events|
  {
    if events == [] then p else Run(Next(p, events[0]), events[1..])
  }

  // The session the slot was last given to, while it is outstanding.
  predicate Current(p: Pool, id: SessionId) {
    id in p.outstanding && IndexOf(id) in p.last && p.last[IndexOf(id)] == id
  }

  // A slot shows its current session and is empty when there is none.
  ghost predicate SlotOk(p: Pool, i: nat)
    requires i < |p.slots|
  {
    && (p.slots[i].alive ==>
          p.slots[i].sessionID != 0 && IndexOf(p.slots[i].sessionID) == i && Current(p, p.slots[i].sessionID))
    && (!p.slots[i].alive ==> p.slots[i] == EMPTY && (i in p.last ==> p.last[i] !in p.outstanding))
  }

  ghost predicate Inv(p: Pool) {
    (forall i :: 0 <= i < |p.slots| ==> SlotOk(p, i)) && BooksOk(p)
  }

  ghost predicate BooksOk(p: Pool) {
    NamesOk(p) && p.count == |p.outstanding| % 0x1_0000_0000
  }

  ghost predicate NamesOk(p: Pool) {
    && (forall id :: id in p.outstanding ==>
          id in p.seen && id != 0 && IndexOf(id) < |p.slots| && IndexOf(id) in p.last)
    && (forall i :: i in p.last ==> p.last[i] in p.seen && IndexOf(p.last[i]) == i)
  }

  lemma StepInv(p: Pool, e: Event)
    requires Inv(p) && Enabled(p, e)
    ensures Inv(Next(p, e))
  {
    var p' := Next(p, e);
    forall i | 0 <= i < |p'.slots|
      ensures SlotOk(p', i)
    {
      assert SlotOk(p, i);
      if e.Init? {
        SlotAfterInit(p, e.id, e.now, i);
      } else {
        SlotAfterDelete(p, e.id, i);
      }
    }
    BooksStep(p, e);
  }

  lemma BooksStep(p: Pool, e: Event)
    requires BooksOk(p) && Enabled(p, e)
    ensures BooksOk(Next(p, e))
  {
    NamesStep(p, e);
    match e
    case Init(id, _) => CountUp(|p.outstanding|);
    case Delete(id) => CountDown(|p.outstanding|);
  }

  lemma NamesStep(p: Pool, e: Event)
    requires NamesOk(p) && Enabled(p, e)
    ensures NamesOk(Next(p, e))
  {
  }

  lemma SlotAfterInit(p: Pool, id: SessionId, now: nat, i: nat)
    requires Enabled(p, Init(id, now)) && i < |p.slots| && SlotOk(p, i)
    requires forall s :: s in p.outstanding ==> s in p.seen
    requires forall j :: j in p.last ==> p.last[j] in p.seen
    ensures SlotOk(Next(p, Init(id, now)), i)
  {
  }

  lemma SlotAfterDelete(p: Pool, id: SessionId, i: nat)
    requires Enabled(p, Delete(id)) && i < |p.slots| && SlotOk(p, i)
    requires forall j :: j in p.last ==> IndexOf(p.last[j]) == j
    ensures SlotOk(Next(p, Delete(id)), i)
  {
  }

  lemma CountUp(n: nat)
    ensures Up(n % 0x1_0000_0000) == (n + 1) % 0x1_0000_0000
  {
  }

  lemma CountDown(n: nat)
    requires n > 0
    ensures Down(n % 0x1_0000_0000) == (n - 1) % 0x1_0000_0000
  {
  }

  lemma {:induction false} EveryRun(p: Pool, events: seq<Event>)
    requires Inv(p) && Possible(p, events)
    ensures Inv(Run(p, events))
    decreases |events|
  {
    if events != [] {
      StepInv(p, events[0]);
      EveryRun(Next(p, events[0]), events[1..]);
    }
  }

  ghost predicate Reachable(p: Pool) {
    exists n, events :: Possible(Start(n), events) && Run(Start(n), events) == p
  }

  lemma ReachableInv(p: Pool)
    requires Reachable(p)
    ensures Inv(p)
  {
    var n, events :| Possible(Start(n), events) && Run(Start(n), events) == p;
    EveryRun(Start(n), events);
  }

  // The counter is the number of outstanding sessions, as long as that fits in
  // 32 bits; each of them whose slot was not given away since is the one its
  // slot shows, and no other is shown.
  lemma CountsAndSlots(n: nat, events: seq<Event>, id: SessionId)
    requires Possible(Start(n), events) && id != 0 && IndexOf(id) < n
    ensures var p := Run(Start(n), events);
            && |p.slots| == n
            && (|p.outstanding| < 0x1_0000_0000 ==> p.count == |p.outstanding|)
            && (Occupies(p.slots, id) <==> Current(p, id))
            && (Occupies(p.slots, id) <==> p.slots[IndexOf(id)].alive && p.slots[IndexOf(id)].sessionID == id)
  {
    EveryRun(Start(n), events);
    SizeKept(Start(n), events);
    assert SlotOk(Run(Start(n), events), IndexOf(id));
  }

  lemma {:induction false} SizeKept(p: Pool, events: seq<Event>)
    requires Possible(p, events)
    ensures |Run(p, events).slots| == |p.slots|
    decreases |events|
  {
    if events != [] {
      SizeKept(Next(p, events[0]), events[1..]);
    }
  }

  // From its login on, as long as its slot has not been given away, a session
  // stands there with the time of that login; when it has been deleted in time,
  // the slot is as it was at the start.
  lemma StandsWithItsTime(p: Pool, id: SessionId, now: nat, later: seq<Event>)
    requires Reachable(p) && Enabled(p, Init(id, now)) && Possible(Next(p, Init(id, now)), later)
    ensures var q := Run(Next(p, Init(id, now)), later);
            && IndexOf(id) < |q.slots| && id in q.seen
            && (Current(q, id) ==> q.slots[IndexOf(id)] == User(true, now, id))
            && (Current(q, id) && Enabled(q, Delete(id)) ==>
                  Next(q, Delete(id)).slots[IndexOf(id)] == User(false, 0, 0) == EMPTY)
  {
    ReachableInv(p);
    StepInv(p, Init(id, now));
    StandsFrom(Next(p, Init(id, now)), id, now, later);
  }

  lemma {:induction false} StandsFrom(p: Pool, id: SessionId, now: nat, later: seq<Event>)
    requires Inv(p) && Possible(p, later) && id in p.seen && IndexOf(id) < |p.slots|
    requires Current(p, id) ==> p.slots[IndexOf(id)] == User(true, now, id)
    ensures var q := Run(p, later);
            IndexOf(id) < |q.slots| && id in q.seen && (Current(q, id) ==> q.slots[IndexOf(id)] == User(true, now, id))
    decreases |later|
  {
    if later != [] {
      StepInv(p, later[0]);
      StandsStep(p, id, now, later[0]);
      StandsFrom(Next(p, later[0]), id, now, later[1..]);
    }
  }

  lemma StandsStep(p: Pool, id: SessionId, now: nat, e: Event)
    requires Enabled(p, e) && id in p.seen && IndexOf(id) < |p.slots|
    requires Current(p, id) ==> p.slots[IndexOf(id)] == User(true, now, id)
    ensures var q := Next(p, e);
            IndexOf(id) < |q.slots| && id in q.seen && (Current(q, id) ==> q.slots[IndexOf(id)] == User(true, now, id))
  {
  }

  // A delete that comes after the slot was given to another session reports
  // failure and leaves all slots alone; only the counter goes down. A delete in
  // time empties exactly its own slot.
  lemma LateDeleteSparesTheNewUser(p: Pool, id: SessionId)
    requires Reachable(p) && Enabled(p, Delete(id))
    ensures IndexOf(id) in p.last && (Occupies(p.slots, id) <==> p.last[IndexOf(id)] == id)
    ensures p.last[IndexOf(id)] != id ==> Next(p, Delete(id)).slots == p.slots
    ensures forall i :: 0 <= i < |p.slots| && p.slots[i].sessionID != id ==> Next(p, Delete(id)).slots[i] == p.slots[i]
  {
    ReachableInv(p);
    assert SlotOk(p, IndexOf(id));
  }

  // ---- how many users the slots show ------------------------------------------------------------

  function AliveBelow(slots: seq<User>, n: nat): nat
    requires n <= |slots|
  {
    if n == 0 then 0 else AliveBelow(slots, n - 1) + if slots[n - 1].alive then 1 else 0
  }

  ghost function CurrentBelow(p: Pool, n: nat): set<SessionId> {
    set id | id in p.outstanding && Current(p, id) && IndexOf(id) < n
  }

  lemma {:induction false} AliveAreCurrent(p: Pool, n: nat)
    requires Inv(p) && n <= |p.slots|
    ensures AliveBelow(p.slots, n) == |CurrentBelow(p, n)|
  {
    if n == 0 {
      assert CurrentBelow(p, 0) == {};
    } else {
      AliveAreCurrent(p, n - 1);
      assert SlotOk(p, n - 1);
      if p.slots[n - 1].alive {
        assert CurrentBelow(p, n) == CurrentBelow(p, n - 1) + {p.slots[n - 1].sessionID};
      } else {
        assert CurrentBelow(p, n) == CurrentBelow(p, n - 1);
      }
    }
  }

  // The slots show as many users as there are outstanding sessions whose slot
  // was not given away: fewer than the counter by exactly the displaced ones.
  lemma ShownAndDisplaced(p: Pool)
    requires Reachable(p)
    ensures AliveBelow(p.slots, |p.slots|) + |Displaced(p)| == |p.outstanding|
  {
    ReachableInv(p);
    AliveAreCurrent(p, |p.slots|);
    assert p.outstanding == CurrentBelow(p, |p.slots|) + Displaced(p);
    assert CurrentBelow(p, |p.slots|) !! Displaced(p);
  }

  ghost function Displaced(p: Pool): set<SessionId> {
    set id | id in p.outstanding && !Current(p, id)
  }
}
