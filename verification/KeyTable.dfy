// The chat server's table of logged-in characters. A second login with the same
// key throws the first session out; the table must never hold more than
// playerMaxCount keys. The table is also emptied from the other end, by the
// disconnect handler of each session, which may run long after the take-over.
module KeyTables {
  type Key = nat
  type Id = nat
  type Table = map<Key, Id>

  // ---- the two operations as functions of the table --------------------------------

  function Inserted(t: Table, max: nat, key: Key, id: Id): (t': Table)
    ensures |t| <= max ==> |t'| <= max
  {
    var rest := t - {key};
    Removing(t, key);
    if |rest| >= max then rest else rest[key := id]
  }

  predicate Accepted(t: Table, max: nat, key: Key) {
    |t - {key}| < max
  }

  lemma Removing(t: Table, key: Key)
    ensures |t - {key}| == if key in t then |t| - 1 else |t|
  {
    assert (t - {key}).Keys == t.Keys - {key};
  }

  class CharacterKeyManager {
    var keyMap: Table
    const playerMaxCount: nat

    // The arguments of the calls of DisconnectSession, oldest first.
    ghost var disconnected: seq<Id>

    constructor (playerCount: nat)
      ensures keyMap == map[] && playerMaxCount == playerCount && disconnected == []
    {
      keyMap := map[];
      playerMaxCount := playerCount;
      disconnected := [];
    }

    method InsertID(characterKey: Key, sessionID: Id) returns (ok: bool)
      modifies this
      ensures ok == Accepted(old(keyMap), playerMaxCount, characterKey)
      ensures keyMap == Inserted(old(keyMap), playerMaxCount, characterKey, sessionID)
      ensures disconnected == old(disconnected)
                              + if characterKey in old(keyMap) then [old(keyMap)[characterKey]] else []
    {
      if characterKey in keyMap {
        disconnected := disconnected + [keyMap[characterKey]];
        var _ := DeleteID(characterKey, keyMap[characterKey]);
      }
      if |keyMap| >= playerMaxCount {
        return false;
      }
      keyMap := keyMap[characterKey := sessionID];
      ok := true;
    }

    // The session is not looked at.
    method DeleteID(characterKey: Key, sessionID: Id) returns (ok: bool)
      modifies this`keyMap
      ensures ok == (characterKey in old(keyMap))
      ensures keyMap == old(keyMap) - {characterKey}
    {
      if characterKey !in keyMap {
        assert keyMap - {characterKey} == keyMap;
        return false;
      }
      keyMap := keyMap - {characterKey};
      ok := true;
    }
  }

  // A login that is accepted maps its key to its session and leaves all other
  // keys alone; one that is refused changes nothing. It is refused exactly
  // when the key is new and the table is full, so taking a key over succeeds
  // in a full table too.
  lemma InsertionIsExact(t: Table, max: nat, key: Key, id: Id)
    requires |t| <= max
    ensures Accepted(t, max, key) <==> key in t || |t| < max
    ensures Accepted(t, max, key) ==> Inserted(t, max, key, id) == t[key := id]
    ensures !Accepted(t, max, key) ==> Inserted(t, max, key, id) == t
  {
    Removing(t, key);
    assert (t - {key})[key := id] == t[key := id];
    assert key !in t ==> t - {key} == t;
  }

  // ---- the sessions around the table ------------------------------------------------

  // online: sessions that have completed a login and have not left, with their
  // key. told: those that a login told to go, because it took their key over,
  // or because it was their own and was refused or carried a bad name. gone:
  // those whose disconnect handler has run.
  datatype World = World(table: Table, online: map<Id, Key>, told: set<Id>, gone: set<Id>)

  // named: the names in the login message end within their fields, which is
  // looked at when the key is already in the table. Leave: the disconnect
  // handler. It deletes the key only of a player that had been placed in a
  // sector.
  datatype Event = Login(id: Id, key: Key, named: bool) | Leave(id: Id, placed: bool)

  // The status of a session lets it log in until it has completed a login, also
  // after a login that failed: the messages received with that one are still
  // handled. Session ids are never used twice.
  predicate Enabled(w: World, e: Event) {
    match e
    case Login(id, _, _) => id !in w.online && id !in w.gone
    case Leave(id, placed) => id !in w.gone && (placed ==> id in w.online)
  }

  function Next(max: nat, w: World, e: Event): World
    requires Enabled(w, e)
  {
    match e
    case Login(id, key, named) =>
      var ok := Accepted(w.table, max, key) && named;
      World(Inserted(w.table, max, key, id), if ok then w.online[id := key] else w.online,
            w.told + (if key in w.table then {w.table[key]} else {}) + (if ok then {} else {id}), w.gone)
    case Leave(id, placed) =>
      World(if placed then w.table - {w.online[id]} else w.table, w.online - {id}, w.told, w.gone + {id})
  }

  const START := World(map[], map[], {}, {})

  ghost predicate Possible(max: nat, w: World, events: seq<Event>)
    decreases |events|
  {
    events == [] || (Enabled(w, events[0]) && Possible(max, Next(max, w, events[0]), events[1..]))
  }

  function Run(max: nat, w: World, events: seq<Event>): World
    requires Possible(max, w, events)
    decreases |events|
  {
    if events == [] then w else Run(max, Next(max, w, events[0]), events[1..])
  }

  // ---- what holds in every run ---------------------------------------------------------

  ghost predicate Inv(max: nat, w: World) {
    |w.table| <= max && w.online.Keys !! w.gone
  }

  lemma StepInv(max: nat, w: World, e: Event)
    requires Inv(max, w) && Enabled(w, e)
    ensures Inv(max, Next(max, w, e))
  {
    if e.Leave? && e.placed {
      Removing(w.table, w.online[e.id]);
    }
  }

  // The table stays within its limit.
  lemma {:induction false} EveryRun(max: nat, w: World, events: seq<Event>)
    requires Inv(max, w) && Possible(max, w, events)
    ensures |Run(max, w, events).table| <= max && Inv(max, Run(max, w, events))
    decreases |events|
  {
    if events != [] {
      StepInv(max, w, events[0]);
      EveryRun(max, Next(max, w, events[0]), events[1..]);
    }
  }

  // ---- whose the entries are -------------------------------------------------------------

  // The login is not accepted by the table, or the session is not told to go,
  // neither by it nor before.
  predicate Proper(max: nat, w: World, e: Event) {
    e.Login? && Accepted(w.table, max, e.key) ==> e.named && e.id !in w.told
  }

  // No entry names a session that was told to go, nor an online one's former
  // key.
  ghost predicate Owned(w: World) {
    forall k :: k in w.table ==> OwnEntry(w, k)
  }

  predicate OwnEntry(w: World, k: Key)
    requires k in w.table
  {
    w.table[k] !in w.told && (w.table[k] in w.online ==> w.online[w.table[k]] == k)
  }

  // Besides, an entry is of a session that completed its login, which does so
  // once.
  ghost predicate OnceEach(w: World) {
    && (forall k :: k in w.table ==> w.table[k] in w.online || w.table[k] in w.gone)
    && OneKeyEach(w.table)
  }

  ghost predicate OneKeyEach(t: Table) {
    forall k, l :: k in t && l in t && t[k] == t[l] ==> k == l
  }

  lemma OwnedUntilImproper(max: nat, w: World, e: Event)
    requires Inv(max, w) && Owned(w) && OnceEach(w) && Enabled(w, e)
    ensures Owned(Next(max, w, e)) <==> Proper(max, w, e)
    ensures Proper(max, w, e) ==> OnceEach(Next(max, w, e))
  {
    if e.Login? {
      InsertionIsExact(w.table, max, e.key, e.id);
      if Proper(max, w, e) {
        ProperLogin(max, w, e);
      } else {
        assert !OwnEntry(Next(max, w, e), e.key);
      }
    }
  }

  lemma ProperLogin(max: nat, w: World, e: Event)
    requires Inv(max, w) && Owned(w) && OnceEach(w) && Enabled(w, e) && e.Login? && Proper(max, w, e)
    ensures Owned(Next(max, w, e)) && OnceEach(Next(max, w, e))
  {
    forall k | k in Next(max, w, e).table
      ensures OwnEntry(Next(max, w, e), k)
    {
      OwnAfterLogin(max, w, e, k);
    }
    OnceAfterLogin(max, w, e);
  }

  lemma OnceAfterLogin(max: nat, w: World, e: Event)
    requires Inv(max, w) && OnceEach(w) && Enabled(w, e) && e.Login? && Proper(max, w, e)
    ensures OnceEach(Next(max, w, e))
  {
    InsertionIsExact(w.table, max, e.key, e.id);
    OnlineAfterLogin(max, w, e);
    if Accepted(w.table, max, e.key) {
      OnceInserted(w.table, e.key, e.id);
    }
  }

  lemma OnceInserted(t: Table, key: Key, id: Id)
    requires OneKeyEach(t) && forall k :: k in t ==> t[k] != id
    ensures OneKeyEach(t[key := id])
  {
  }

  lemma OwnAfterLogin(max: nat, w: World, e: Event, k: Key)
    requires Inv(max, w) && Owned(w) && OnceEach(w) && Enabled(w, e) && e.Login? && Proper(max, w, e)
    requires k in Next(max, w, e).table
    ensures OwnEntry(Next(max, w, e), k)
  {
    var w' := Next(max, w, e);
    InsertionIsExact(w.table, max, e.key, e.id);
    if Accepted(w.table, max, e.key) && k == e.key {
      assert w'.table[k] == e.id && e.id in w'.online;
      assert e.key in w.table ==> w.table[e.key] != e.id;
    } else {
      assert w'.table[k] == w.table[k] && OwnEntry(w, k);
      assert w.table[k] != e.id;
    }
  }

  ghost predicate AlwaysOwned(max: nat, w: World, events: seq<Event>)
    requires Possible(max, w, events)
    decreases |events|
  {
    Owned(w) && (events != [] ==> AlwaysOwned(max, Next(max, w, events[0]), events[1..]))
  }

  ghost predicate ProperRun(max: nat, w: World, events: seq<Event>)
    requires Possible(max, w, events)
    decreases |events|
  {
    events != [] ==> Proper(max, w, events[0]) && ProperRun(max, Next(max, w, events[0]), events[1..])
  }

  // Over a whole run no entry ever names a session that was told to go, exactly
  // if every accepted login is of a session that is not; whatever the
  // departures.
  lemma OwnedExactlyInProperRuns(max: nat, events: seq<Event>)
    requires Possible(max, START, events)
    ensures AlwaysOwned(max, START, events) <==> ProperRun(max, START, events)
  {
    OwnedFrom(max, START, events);
  }

  lemma {:induction false} OwnedFrom(max: nat, w: World, events: seq<Event>)
    requires Inv(max, w) && Owned(w) && OnceEach(w) && Possible(max, w, events)
    ensures AlwaysOwned(max, w, events) <==> ProperRun(max, w, events)
    decreases |events|
  {
    if events != [] {
      StepInv(max, w, events[0]);
      OwnedUntilImproper(max, w, events[0]);
      if Proper(max, w, events[0]) {
        OwnedFrom(max, Next(max, w, events[0]), events[1..]);
      }
    }
  }

  // ---- what the table is for -------------------------------------------------------------

  // Online and not told to go.
  predicate Active(w: World, id: Id) {
    id in w.online && id !in w.told
  }

  predicate Entry(w: World, k: Key, id: Id) {
    k in w.table && w.table[k] == id
  }

  predicate ActiveWith(w: World, k: Key, id: Id) {
    Active(w, id) && w.online[id] == k
  }

  // The table lists exactly the active sessions.
  ghost predicate Agrees(w: World) {
    forall k, id :: Entry(w, k, id) <==> ActiveWith(w, k, id)
  }

  // The login is proper; the handler deletes its own session's entry, and no
  // other one.
  predicate Clean(max: nat, w: World, e: Event)
    requires Enabled(w, e)
  {
    match e
    case Login(_, _, _) => Proper(max, w, e)
    case Leave(id, placed) =>
      id in w.online && w.online[id] in w.table ==> (placed <==> w.table[w.online[id]] == id)
  }

  // A right table stays right exactly under proper logins and clean departures.
  lemma RightUntilUnclean(max: nat, w: World, e: Event)
    requires Inv(max, w) && Enabled(w, e) && Agrees(w)
    ensures Agrees(Next(max, w, e)) <==> Clean(max, w, e)
  {
    match e
    case Login(id, key, named) => LoginAgrees(max, w, id, key, named);
    case Leave(id, placed) => LeaveAgrees(max, w, id, placed);
  }

  lemma LoginAgrees(max: nat, w: World, id: Id, key: Key, named: bool)
    requires Inv(max, w) && Enabled(w, Login(id, key, named)) && Agrees(w)
    ensures Agrees(Next(max, w, Login(id, key, named))) <==> Proper(max, w, Login(id, key, named))
  {
    var e := Login(id, key, named);
    var w' := Next(max, w, e);
    InsertionIsExact(w.table, max, key, id);
    if Proper(max, w, e) {
      forall k, s
        ensures Entry(w', k, s) <==> ActiveWith(w', k, s)
      {
        LoginAgreesOn(max, w, e, k, s);
      }
    } else {
      assert Entry(w', key, id) && !ActiveWith(w', key, id);
    }
  }

  lemma LoginAgreesOn(max: nat, w: World, e: Event, k: Key, s: Id)
    requires Inv(max, w) && Enabled(w, e) && e.Login? && Agrees(w) && Proper(max, w, e)
    ensures Entry(Next(max, w, e), k, s) <==> ActiveWith(Next(max, w, e), k, s)
  {
    assert Entry(w, e.key, e.id) <==> ActiveWith(w, e.key, e.id);
    EntriesAfterLogin(max, w, e, k, s);
    ActiveAfterLogin(max, w, e, k, s);
    assert Entry(w, k, s) <==> ActiveWith(w, k, s);
    assert Entry(w, e.key, s) <==> ActiveWith(w, e.key, s);
  }

  lemma EntriesAfterLogin(max: nat, w: World, e: Event, k: Key, s: Id)
    requires Inv(max, w) && Enabled(w, e) && e.Login?
    ensures Entry(Next(max, w, e), k, s)
       <==> if k == e.key && Accepted(w.table, max, e.key) then s == e.id else Entry(w, k, s)
  {
    InsertionIsExact(w.table, max, e.key, e.id);
  }

  lemma ActiveAfterLogin(max: nat, w: World, e: Event, k: Key, s: Id)
    requires Enabled(w, e) && e.Login? && Proper(max, w, e) && !Entry(w, e.key, e.id)
    ensures ActiveWith(Next(max, w, e), k, s)
       <==> if s == e.id then Accepted(w.table, max, e.key) && k == e.key
            else ActiveWith(w, k, s) && !Entry(w, e.key, s)
  {
    ToldAfterLogin(max, w, e, s);
    OnlineAfterLogin(max, w, e);
  }

  lemma ToldAfterLogin(max: nat, w: World, e: Event, s: Id)
    requires Enabled(w, e) && e.Login?
    ensures s in Next(max, w, e).told
       <==> s in w.told || Entry(w, e.key, s) || (s == e.id && !(Accepted(w.table, max, e.key) && e.named))
  {
  }

  lemma OnlineAfterLogin(max: nat, w: World, e: Event)
    requires Enabled(w, e) && e.Login?
    ensures Next(max, w, e).online
         == if Accepted(w.table, max, e.key) && e.named then w.online[e.id := e.key] else w.online
  {
  }

  lemma LeaveAgrees(max: nat, w: World, id: Id, placed: bool)
    requires Inv(max, w) && Enabled(w, Leave(id, placed)) && Agrees(w)
    ensures Agrees(Next(max, w, Leave(id, placed))) <==> Clean(max, w, Leave(id, placed))
  {
    var w' := Next(max, w, Leave(id, placed));
    if Clean(max, w, Leave(id, placed)) {
      forall k, s
        ensures Entry(w', k, s) <==> ActiveWith(w', k, s)
      {
        assert Entry(w, k, s) <==> ActiveWith(w, k, s);
        assert id in w.online ==> (Entry(w, w.online[id], id) <==> ActiveWith(w, w.online[id], id));
      }
    } else {
      var key := w.online[id];
      var s := w.table[key];
      assert Entry(w, key, s) && ActiveWith(w, key, s);
      assert !(Entry(w', key, s) <==> ActiveWith(w', key, s));
    }
  }

  ghost predicate AlwaysAgrees(max: nat, w: World, events: seq<Event>)
    requires Possible(max, w, events)
    decreases |events|
  {
    Agrees(w) && (events != [] ==> AlwaysAgrees(max, Next(max, w, events[0]), events[1..]))
  }

  ghost predicate CleanRun(max: nat, w: World, events: seq<Event>)
    requires Possible(max, w, events)
    decreases |events|
  {
    events != [] ==> Clean(max, w, events[0]) && CleanRun(max, Next(max, w, events[0]), events[1..])
  }

  // Over a whole run the table is right all the time exactly if every accepted
  // login is proper and every departure is clean.
  lemma RightExactlyInCleanRuns(max: nat, events: seq<Event>)
    requires Possible(max, START, events)
    ensures AlwaysAgrees(max, START, events) <==> CleanRun(max, START, events)
  {
    RightFrom(max, START, events);
  }

  lemma {:induction false} RightFrom(max: nat, w: World, events: seq<Event>)
    requires Inv(max, w) && Agrees(w) && Possible(max, w, events)
    ensures AlwaysAgrees(max, w, events) <==> CleanRun(max, w, events)
    decreases |events|
  {
    if events != [] {
      var w' := Next(max, w, events[0]);
      StepInv(max, w, events[0]);
      RightUntilUnclean(max, w, events[0]);
      if Clean(max, w, events[0]) {
        RightFrom(max, w', events[1..]);
      }
    }
  }

  // ---- one session per key ------------------------------------------------------------------

  // No two active sessions have one key.
  ghost predicate OnePerKey(w: World) {
    forall a, b :: Active(w, a) && Active(w, b) && w.online[a] == w.online[b] ==> a == b
  }

  // A login that makes its session active finds the active session of its key,
  // if there is one, in the table.
  ghost predicate Finds(max: nat, w: World, e: Event) {
    e.Login? && Accepted(w.table, max, e.key) && e.named && e.id !in w.told && !Entry(w, e.key, e.id)
    ==> forall s :: ActiveWith(w, e.key, s) ==> Entry(w, e.key, s)
  }

  lemma OnePerKeyUntilMissed(max: nat, w: World, e: Event)
    requires OnePerKey(w) && Enabled(w, e)
    ensures OnePerKey(Next(max, w, e)) <==> Finds(max, w, e)
  {
    if Finds(max, w, e) {
      var w' := Next(max, w, e);
      forall a, b | Active(w', a) && Active(w', b) && w'.online[a] == w'.online[b]
        ensures a == b
      {
        StillActive(max, w, e, a);
        StillActive(max, w, e, b);
        OnlineAfter(max, w, e, a, b);
      }
    } else {
      Missed(max, w, e);
    }
  }

  lemma OnlineAfter(max: nat, w: World, e: Event, a: Id, b: Id)
    requires Enabled(w, e) && Active(Next(max, w, e), a) && Active(Next(max, w, e), b)
    ensures e.Login? && a == e.id ==> Next(max, w, e).online[a] == e.key
    ensures e.Login? && b == e.id ==> Next(max, w, e).online[b] == e.key
  {
    if e.Login? {
      OnlineAfterLogin(max, w, e);
    }
  }

  lemma Missed(max: nat, w: World, e: Event)
    requires Enabled(w, e) && !Finds(max, w, e)
    ensures !OnePerKey(Next(max, w, e))
  {
    var s :| ActiveWith(w, e.key, s) && !Entry(w, e.key, s);
    ToldAfterLogin(max, w, e, s);
    ToldAfterLogin(max, w, e, e.id);
    OnlineAfterLogin(max, w, e);
    assert Active(Next(max, w, e), s) && Active(Next(max, w, e), e.id);
  }

  lemma StillActive(max: nat, w: World, e: Event, s: Id)
    requires Enabled(w, e) && Active(Next(max, w, e), s)
    ensures (e.Login? && s == e.id) || ActiveWith(w, Next(max, w, e).online[s], s)
    ensures e.Login? ==> !Entry(w, e.key, s) && (s == e.id ==> Accepted(w.table, max, e.key) && e.named && s !in w.told)
  {
    if e.Login? {
      ToldAfterLogin(max, w, e, s);
      OnlineAfterLogin(max, w, e);
    }
  }

  ghost predicate AlwaysOnePerKey(max: nat, w: World, events: seq<Event>)
    requires Possible(max, w, events)
    decreases |events|
  {
    OnePerKey(w) && (events != [] ==> AlwaysOnePerKey(max, Next(max, w, events[0]), events[1..]))
  }

  ghost predicate FindingRun(max: nat, w: World, events: seq<Event>)
    requires Possible(max, w, events)
    decreases |events|
  {
    events != [] ==> Finds(max, w, events[0]) && FindingRun(max, Next(max, w, events[0]), events[1..])
  }

  // Over a whole run no two active sessions ever have one key, exactly if every
  // login that makes its session active finds the active session of its key, if
  // there is one, in the table.
  lemma OnePerKeyExactly(max: nat, events: seq<Event>)
    requires Possible(max, START, events)
    ensures AlwaysOnePerKey(max, START, events) <==> FindingRun(max, START, events)
  {
    OnePerKeyFrom(max, START, events);
  }

  lemma {:induction false} OnePerKeyFrom(max: nat, w: World, events: seq<Event>)
    requires OnePerKey(w) && Possible(max, w, events)
    ensures AlwaysOnePerKey(max, w, events) <==> FindingRun(max, w, events)
    decreases |events|
  {
    if events != [] {
      OnePerKeyUntilMissed(max, w, events[0]);
      if Finds(max, w, events[0]) {
        OnePerKeyFrom(max, Next(max, w, events[0]), events[1..]);
      }
    }
  }

  // What a right table gives: one active session per key, no more of them than
  // the limit, and a refusal only when that many others are active.
  lemma OneSessionPerKey(w: World, a: Id, b: Id)
    requires Agrees(w) && Active(w, a) && Active(w, b) && w.online[a] == w.online[b]
    ensures a == b
  {
    assert Entry(w, w.online[a], a) && Entry(w, w.online[b], b);
  }

  ghost function ActiveSet(w: World): set<Id> {
    set id | id in w.online && Active(w, id)
  }

  lemma AsManyAsEntries(max: nat, w: World)
    requires Inv(max, w) && Agrees(w)
    ensures |ActiveSet(w)| == |w.table| <= max
  {
    forall id | id in ActiveSet(w)
      ensures w.online[id] in w.table && w.table[w.online[id]] == id
    {
      assert Entry(w, w.online[id], id);
    }
    forall k | k in w.table
      ensures w.table[k] in ActiveSet(w) && w.online[w.table[k]] == k
    {
      assert Entry(w, k, w.table[k]);
    }
    SameSize(w.table, ActiveSet(w), w.online);
  }

  lemma {:induction false} SameSize(t: Table, ids: set<Id>, keyOf: map<Id, Key>)
    requires forall id :: id in ids ==> id in keyOf && keyOf[id] in t && t[keyOf[id]] == id
    requires forall k :: k in t ==> t[k] in ids && keyOf[t[k]] == k
    ensures |t| == |ids|
    decreases |ids|
  {
    if ids == {} {
      assert t.Keys == {};
    } else {
      var id :| id in ids;
      Removing(t, keyOf[id]);
      SameSize(t - {keyOf[id]}, ids - {id}, keyOf);
    }
  }

  // A thrown-out session whose handler runs after the take-over deletes its
  // successor's entry: then two sessions with one key are active, more than
  // the limit allows.
  lemma LateDepartureBreaksIt()
    ensures var events := [Login(1, 7, true), Login(2, 7, true), Leave(1, true), Login(3, 7, true)];
            && Possible(1, START, events)
            && var w := Run(1, START, events);
               Active(w, 2) && Active(w, 3) && w.online[2] == w.online[3] && w.table == map[7 := 3]
  {
    var w1 := World(map[7 := 1], map[1 := 7], {}, {});
    var w2 := World(map[7 := 2], map[1 := 7, 2 := 7], {1}, {});
    var w3 := World(map[], map[2 := 7], {1}, {1});
    var w4 := World(map[7 := 3], map[2 := 7, 3 := 7], {1}, {1});
    LoginStep(1, START, Login(1, 7, true), w1);
    LoginStep(1, w1, Login(2, 7, true), w2);
    LeaveStep(w2, w3);
    LoginStep(1, w3, Login(3, 7, true), w4);
    PathRuns(1, [START, w1, w2, w3, w4],
             [Login(1, 7, true), Login(2, 7, true), Leave(1, true), Login(3, 7, true)]);
  }

  lemma LeaveStep(w: World, to: World)
    requires w == World(map[7 := 2], map[1 := 7, 2 := 7], {1}, {})
    requires to == World(map[], map[2 := 7], {1}, {1})
    ensures Takes(1, w, Leave(1, true), to)
  {
    assert w.table - {7} == to.table && w.online - {1} == to.online;
  }

  // A login that the table accepts and that completes.
  lemma LoginStep(max: nat, w: World, e: Event, to: World)
    requires Enabled(w, e) && e.Login? && e.named && |w.table| <= max && (e.key in w.table || |w.table| < max)
    requires to == World(w.table[e.key := e.id], w.online[e.id := e.key],
                         w.told + if e.key in w.table then {w.table[e.key]} else {}, w.gone)
    ensures Takes(max, w, e, to)
  {
    InsertionIsExact(w.table, max, e.key, e.id);
  }

  predicate Takes(max: nat, w: World, e: Event, to: World) {
    Enabled(w, e) && Next(max, w, e) == to
  }

  // The worlds a run goes through.
  lemma {:induction false} PathRuns(max: nat, worlds: seq<World>, events: seq<Event>)
    requires |worlds| == |events| + 1
    requires forall i :: 0 <= i < |events| ==> Takes(max, worlds[i], events[i], worlds[i + 1])
    ensures Possible(max, worlds[0], events) && Run(max, worlds[0], events) == worlds[|events|]
    decreases |events|
  {
    if events != [] {
      assert Takes(max, worlds[0], events[0], worlds[1]);
      PathRuns(max, worlds[1..], events[1..]);
    }
  }

  // A session that leaves before it was placed keeps its key occupied: with a
  // limit of one, nobody with another key can log in any more.
  lemma UnplacedDepartureKeepsThePlace()
    ensures var events := [Login(1, 7, true), Leave(1, false)];
            && Possible(1, START, events)
            && var w := Run(1, START, events);
               ActiveSet(w) == {} && forall key :: Accepted(w.table, 1, key) <==> key == 7
  {
  }

  // ---- a session that never completes a login --------------------------------------------------

  function BadNames(count: nat): (events: seq<Event>)
    ensures |events| == count && forall i :: 0 <= i < count ==> events[i] == Login(1, i, false)
  {
    if count == 0 then [] else BadNames(count - 1) + [Login(1, count - 1, false)]
  }

  function FilledTable(count: nat): (t: Table)
    ensures |t| == count && forall key: Key :: key in t <==> key < count
  {
    if count == 0 then map[] else FilledTable(count - 1)[count - 1 := 1]
  }

  // After that many of them.
  function Filled(count: nat): World {
    World(FilledTable(count), map[], if count == 0 then {} else {1}, {})
  }

  function FilledWorlds(count: nat): (worlds: seq<World>)
    ensures |worlds| == count + 1 && forall i :: 0 <= i <= count ==> worlds[i] == Filled(i)
  {
    if count == 0 then [Filled(0)] else FilledWorlds(count - 1) + [Filled(count)]
  }

  lemma FillOne(max: nat, count: nat)
    requires count < max
    ensures Takes(max, Filled(count), Login(1, count, false), Filled(count + 1))
  {
    InsertionIsExact(FilledTable(count), max, count, 1);
    assert FilledTable(count + 1) == FilledTable(count)[count := 1];
  }

  // One session that sends logins with bad names, one after the other, fills
  // the table, although nobody is online: then no new key is accepted.
  lemma OneSessionFillsTheTable(max: nat)
    ensures Possible(max, START, BadNames(max))
    ensures var w := Run(max, START, BadNames(max));
            ActiveSet(w) == {} && |w.table| == max && forall key: Key :: Accepted(w.table, max, key) <==> key < max
  {
    var events, worlds := BadNames(max), FilledWorlds(max);
    forall i | 0 <= i < max
      ensures Takes(max, worlds[i], events[i], worlds[i + 1])
    {
      FillOne(max, i);
    }
    PathRuns(max, worlds, events);
    assert worlds[0] == START && worlds[max] == Filled(max);
    NoNewKey(max);
  }

  lemma NoNewKey(max: nat)
    ensures forall key: Key :: Accepted(FilledTable(max), max, key) <==> key < max
  {
    forall key: Key
      ensures Accepted(FilledTable(max), max, key) <==> key < max
    {
      InsertionIsExact(FilledTable(max), max, key, 1);
    }
  }
}
