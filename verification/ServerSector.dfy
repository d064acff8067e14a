// The single-threaded chat server's sector lists. The caller writes the new
// position first and hands SyncSector the old one.
module ServerSectors {
  import opened Integers
  import opened SectorGrid

  class Player {
    var x: int
    var y: int

    constructor (x: int, y: int)
      ensures this.x == x && this.y == y
    {
      this.x, this.y := x, y;
    }
  }

  class ServerIndex {
    const grid: Grid
    var lists: Lists<Player>

    constructor (g: Grid)
      requires g.Valid()
      ensures grid == g && Valid({}) && forall c :: c in lists ==> lists[c] == []
    {
      grid := g;
      lists := map x, y | 0 <= x < g.width && 0 <= y < g.height :: Cell(x, y) := [];
    }

    ghost function Home(p: Player): Cell
      requires grid.Valid()
      reads p
    {
      grid.CellOf(p.x, p.y)
    }

    // Every player is on the map and stands once in the list of its cell.
    ghost predicate Valid(players: set<Player>)
      reads this, players
    {
      grid.Valid() && Covers(lists, grid) && forall p :: p in players ==> IndexedAt(lists, p, Home(p))
    }

    // Everyone but `mover` is in place; `mover` still stands where it was.
    ghost predicate MoverLags(players: set<Player>, mover: Player, from: Cell)
      reads this, players
    {
      && grid.Valid() && Covers(lists, grid) && IndexedAt(lists, mover, from)
      && forall p :: p in players && p != mover ==> IndexedAt(lists, p, Home(p))
    }

    // Player::Init's push_back.
    method Enter(player: Player, ghost players: set<Player>)
      requires Valid(players) && grid.Has(Home(player)) && Absent(lists, player)
      modifies this
      ensures Valid(players + {player})
      ensures lists == Appended(old(lists), Home(player), player)
    {
      var c := grid.CellOf(player.x, player.y);
      ghost var before := lists;
      AppendPlaced(before, grid, player, c);
      lists := lists[c := lists[c] + [player]];
      forall p | p in players
        ensures IndexedAt(lists, p, Home(p))
      {
        assert p != player;
        OthersStay(before, grid, player, c, p, Home(p));
      }
    }

    // The array accesses require both cells to exist.
    method SyncSector(player: Player, beforeX: int, beforeY: int, ghost players: set<Player>) returns (ok: bool)
      requires grid.Valid() && Covers(lists, grid)
      requires grid.Has(grid.CellOf(beforeX, beforeY)) && grid.Has(Home(player))
      modifies this
      ensures Covers(lists, grid)
      ensures ok <==> player in old(lists)[grid.CellOf(beforeX, beforeY)]
      ensures lists == ServerMove(old(lists), player, grid.CellOf(beforeX, beforeY), Home(player))
      ensures !ok ==> lists == old(lists)
      ensures old(MoverLags(players, player, grid.CellOf(beforeX, beforeY))) ==> ok && Valid(players + {player})
    {
      var before := Cell(Truncated(beforeX, grid.cellWidth), Truncated(beforeY, grid.cellHeight));
      var here := Cell(Truncated(player.x, grid.cellWidth), Truncated(player.y, grid.cellHeight));
      var debugSize := |lists[before]|;
      lists := lists[before := EraseAll(lists[before], player)];
      if debugSize == |lists[before]| {
        assert lists == old(lists);
        return false;
      }
      lists := lists[here := lists[here] + [player]];
      if old(MoverLags(players, player, before)) {
        EraseOnce(old(lists)[before], player);
        ServerMovePlaces(old(lists), grid, player, before, here);
        OthersStayHome(old(lists), player, before, here, players);
      }
      return true;
    }

    lemma OthersStayHome(before: Lists<Player>, player: Player, from: Cell, to: Cell, players: set<Player>)
      requires grid.Valid() && Covers(before, grid) && IndexedAt(before, player, from) && grid.Has(to)
      requires forall p :: p in players && p != player ==> IndexedAt(before, p, Home(p))
      ensures forall p :: p in players && p != player ==> IndexedAt(ServerMove(before, player, from, to), p, Home(p))
    {
      forall p | p in players && p != player
        ensures IndexedAt(ServerMove(before, player, from, to), p, Home(p))
      {
        ServerMoveKeeps(before, grid, player, from, to, p, Home(p));
      }
    }

    // The debug check: is the player in the list of its own cell?
    method CheckSector(player: Player) returns (ok: bool)
      requires grid.Valid() && Covers(lists, grid) && grid.Has(Home(player))
      ensures ok <==> player in lists[Home(player)]
    {
      var list := lists[grid.CellOf(player.x, player.y)];
      var i := 0;
      while i < |list| && list[i] != player
        invariant i <= |list| && player !in list[..i]
      {
        i := i + 1;
      }
      return i < |list|;
    }

    // The sector half of Player::MoveStart and MoveStop: write the position,
    // synchronise only when the cell changed. The check that the server makes
    // around every move finds the player.
    method MoveTo(player: Player, x: int, y: int, ghost players: set<Player>) returns (found: bool)
      requires Valid(players) && player in players && grid.Has(grid.CellOf(x, y))
      modifies this, player
      ensures Valid(players) && player.x == x && player.y == y && found
      ensures lists == if old(Home(player)) == Home(player) then old(lists)
                       else ServerMove(old(lists), player, old(Home(player)), Home(player))
    {
      var oldX, oldY := player.x, player.y;
      player.x, player.y := x, y;
      var newSectorX, newSectorY := Truncated(x, grid.cellWidth), Truncated(y, grid.cellHeight);
      if newSectorX != Truncated(oldX, grid.cellWidth) || newSectorY != Truncated(oldY, grid.cellHeight) {
        assert MoverLags(players, player, grid.CellOf(oldX, oldY));
        var ok := SyncSector(player, oldX, oldY, players);
        assert players + {player} == players;
      }
      found := CheckSector(player);
    }
  }

  // ---- the server's move as a value, beside the dummy client's -----------------------

  // Remove every occurrence, give up when there was none, push to the back.
  function ServerMove<T(==)>(lists: Lists<T>, x: T, from: Cell, to: Cell): (r: Lists<T>)
    requires from in lists && to in lists
    ensures r.Keys == lists.Keys
  {
    if x in lists[from] then Appended(lists[from := EraseAll(lists[from], x)], to, x) else lists
  }

  lemma ServerMovePlaces<T>(lists: Lists<T>, g: Grid, x: T, from: Cell, to: Cell)
    requires Covers(lists, g) && IndexedAt(lists, x, from) && g.Has(to)
    ensures IndexedAt(ServerMove(lists, x, from, to), x, to)
  {
  }

  lemma ServerMoveKeeps<T>(lists: Lists<T>, g: Grid, x: T, from: Cell, to: Cell, y: T, d: Cell)
    requires Covers(lists, g) && IndexedAt(lists, x, from) && g.Has(to) && y != x && IndexedAt(lists, y, d)
    ensures IndexedAt(ServerMove(lists, x, from, to), y, d)
  {
    EraseOnce(lists[from], x);
    OthersStay(lists, g, x, from, y, d);
    OthersStay(Erased(lists, from, x), g, x, to, y, d);
  }

  // ---- both programs over the same run -------------------------------------------------

  datatype Move<T> = Move(who: T, to: Cell)

  // The lists and the cell everyone was last moved to.
  datatype World<T> = World(lists: Lists<T>, at: map<T, Cell>)

  ghost predicate InPlace<T>(w: World<T>, g: Grid) {
    Covers(w.lists, g) && forall x :: x in w.at ==> g.Has(w.at[x]) && IndexedAt(w.lists, x, w.at[x])
  }

  ghost predicate Legal<T>(moves: seq<Move<T>>, w: World<T>, g: Grid) {
    forall m :: m in moves ==> m.who in w.at && g.Has(m.to)
  }

  ghost function ServerRun<T>(w: World<T>, g: Grid, moves: seq<Move<T>>): (r: World<T>)
    requires InPlace(w, g) && Legal(moves, w, g)
    ensures InPlace(r, g) && r.at.Keys == w.at.Keys
    decreases |moves|
  {
    if moves == [] then w
    else
      var m := moves[0];
      assert m in moves;
      var next := World(ServerMove(w.lists, m.who, w.at[m.who], m.to), w.at[m.who := m.to]);
      ServerStepInPlace(w, g, m);
      ServerRun(next, g, moves[1..])
  }

  lemma ServerStepInPlace<T>(w: World<T>, g: Grid, m: Move<T>)
    requires InPlace(w, g) && m.who in w.at && g.Has(m.to)
    ensures InPlace(World(ServerMove(w.lists, m.who, w.at[m.who], m.to), w.at[m.who := m.to]), g)
  {
    ServerMovePlaces(w.lists, g, m.who, w.at[m.who], m.to);
    forall x | x in w.at && x != m.who
      ensures IndexedAt(ServerMove(w.lists, m.who, w.at[m.who], m.to), x, w.at[x])
    {
      ServerMoveKeeps(w.lists, g, m.who, w.at[m.who], m.to, x, w.at[x]);
    }
  }

  ghost function DummyRun<T>(w: World<T>, g: Grid, moves: seq<Move<T>>): (r: World<T>)
    requires InPlace(w, g) && Legal(moves, w, g)
    ensures InPlace(r, g) && r.at.Keys == w.at.Keys
    decreases |moves|
  {
    if moves == [] then w
    else
      var m := moves[0];
      assert m in moves;
      var next := World(DummyMove(w.lists, m.who, w.at[m.who], m.to), w.at[m.who := m.to]);
      DummyStepInPlace(w, g, m);
      DummyRun(next, g, moves[1..])
  }

  lemma DummyStepInPlace<T>(w: World<T>, g: Grid, m: Move<T>)
    requires InPlace(w, g) && m.who in w.at && g.Has(m.to)
    ensures InPlace(World(DummyMove(w.lists, m.who, w.at[m.who], m.to), w.at[m.who := m.to]), g)
  {
    if w.at[m.who] != m.to {
      EraseOnce(w.lists[w.at[m.who]], m.who);
      ServerStepInPlace(w, g, m);
    }
  }

  // Equal contents, whatever the order within a list.
  ghost predicate SameMembers<T>(a: Lists<T>, b: Lists<T>) {
    a.Keys == b.Keys && forall c :: c in a ==> multiset(a[c]) == multiset(b[c])
  }

  lemma SameMembersMove<T>(a: Lists<T>, b: Lists<T>, g: Grid, x: T, from: Cell, to: Cell)
    requires Covers(a, g) && SameMembers(a, b) && IndexedAt(a, x, from) && IndexedAt(b, x, from) && g.Has(to)
    ensures SameMembers(ServerMove(a, x, from, to), DummyMove(b, x, from, to))
  {
    EraseOnce(a[from], x);
    assert x in a[from];
    SameMembersErase(a, b, x, from);
    SameMembersAppend(Erased(a, from, x), Erased(b, from, x), x, to);
    if from == to {
      BackInPlace(b, x, from);
    }
  }

  lemma SameMembersErase<T>(a: Lists<T>, b: Lists<T>, x: T, c: Cell)
    requires SameMembers(a, b) && c in a
    ensures SameMembers(Erased(a, c, x), Erased(b, c, x))
  {
    EraseFirstTakesOne(a[c], x);
    EraseFirstTakesOne(b[c], x);
  }

  lemma SameMembersAppend<T>(a: Lists<T>, b: Lists<T>, x: T, c: Cell)
    requires SameMembers(a, b) && c in a
    ensures SameMembers(Appended(a, c, x), Appended(b, c, x))
  {
    assert multiset(a[c] + [x]) == multiset(a[c]) + multiset{x};
    assert multiset(b[c] + [x]) == multiset(b[c]) + multiset{x};
  }

  // Erasing and appending in one list changes at most the order.
  lemma BackInPlace<T>(b: Lists<T>, x: T, c: Cell)
    requires c in b && x in b[c]
    ensures SameMembers(Appended(Erased(b, c, x), c, x), b)
  {
    var rest := EraseFirst(b[c], x);
    EraseFirstTakesOne(b[c], x);
    assert multiset(rest + [x]) == multiset(rest) + multiset{x} == multiset(b[c]);
  }

  // Any run of moves on the map: server and dummy client agree on who is in
  // which cell.
  lemma {:induction false} ServerAndDummyAgree<T>(a: World<T>, b: World<T>, g: Grid, moves: seq<Move<T>>)
    requires InPlace(a, g) && InPlace(b, g) && a.at == b.at && SameMembers(a.lists, b.lists)
    requires Legal(moves, a, g)
    ensures SameMembers(ServerRun(a, g, moves).lists, DummyRun(b, g, moves).lists)
    ensures ServerRun(a, g, moves).at == DummyRun(b, g, moves).at
    decreases |moves|
  {
    if moves != [] {
      var m := moves[0];
      assert m in moves;
      SameMembersMove(a.lists, b.lists, g, m.who, a.at[m.who], m.to);
      ServerStepInPlace(a, g, m);
      DummyStepInPlace(b, g, m);
      ServerAndDummyAgree(
        World(ServerMove(a.lists, m.who, a.at[m.who], m.to), a.at[m.who := m.to]),
        World(DummyMove(b.lists, m.who, b.at[m.who], m.to), b.at[m.who := m.to]), g, moves[1..]);
    }
  }

  // Their orders do differ: a move within a cell sends the server's player to
  // the back of the list and leaves the dummy's where it is.
  lemma OrdersDiffer(c: Cell)
    ensures ServerMove(map[c := [1, 2]], 1, c, c)[c] == [2, 1]
    ensures DummyMove(map[c := [1, 2]], 1, c, c)[c] == [1, 2]
  {
    assert EraseAll([1, 2], 1) == EraseAll([2], 1);
  }
}
