// The dummy client's sector index: sessions that know their sector, the
// global lists, the neighbourhood lookup and the chat loop that uses it.
module SectorIndexes {
  import opened Integers
  import opened SectorGrid

  // ---- GetSectorAround ---------------------------------------------------------

  // st_SECTOR_AROUND: up to nine cells.
  class SectorAround {
    var count: nat
    const around: array<Cell>

    constructor ()
      ensures count == 0 && fresh(around) && around.Length == 9
    {
      count := 0;
      around := new Cell[9](_ => Cell(0, 0));
    }

    function Cells(): seq<Cell>
      requires count <= around.Length
      reads this, around
    {
      around[..count]
    }
  }

  // How many of n consecutive coordinates exist.
  function CountIn(from: int, n: nat, limit: nat): (r: nat)
    ensures r <= n
  {
    if n == 0 then 0 else CountIn(from, n - 1, limit) + (if 0 <= from + n - 1 < limit then 1 else 0)
  }

  lemma CountInClipped(centre: int, limit: nat)
    ensures CountIn(centre - 1, 3, limit) == Clipped(centre, limit)
  {
    assert CountIn(centre - 1, 1, limit) == if 0 <= centre - 1 < limit then 1 else 0;
    assert CountIn(centre - 1, 2, limit) == CountIn(centre - 1, 1, limit) + if 0 <= centre < limit then 1 else 0;
  }

  // The same with `columns` cells in every row that exists.
  function CountRows(from: int, n: nat, limit: nat, columns: nat): (r: nat)
    requires columns <= 3
    ensures r <= 3 * n
  {
    if n == 0 then 0 else CountRows(from, n - 1, limit, columns) + (if 0 <= from + n - 1 < limit then columns else 0)
  }

  lemma CountRowsClipped(centre: int, limit: nat, columns: nat)
    requires columns <= 3
    ensures CountRows(centre - 1, 3, limit, columns) == columns * Clipped(centre, limit)
  {
    assert CountRows(centre - 1, 1, limit, columns) == if 0 <= centre - 1 < limit then columns else 0;
    assert CountRows(centre - 1, 2, limit, columns)
        == CountRows(centre - 1, 1, limit, columns) + if 0 <= centre < limit then columns else 0;
  }

  // c comes before position (x, y) when rows are read one after another.
  predicate Before(c: Cell, x: int, y: int) {
    RowMajor(c, Cell(x, y))
  }

  ghost predicate AroundSoFar(g: Grid, centre: Cell, cells: seq<Cell>, x: int, y: int) {
    && (forall c :: c in cells <==> g.Has(c) && Near(c, centre) && Before(c, x, y))
    && forall i, j :: 0 <= i < j < |cells| ==> RowMajor(cells[i], cells[j])
  }

  lemma AroundNext(g: Grid, centre: Cell, cells: seq<Cell>, x: int, y: int)
    requires AroundSoFar(g, centre, cells, x, y) && Near(Cell(x, y), centre)
    ensures AroundSoFar(g, centre, if g.Has(Cell(x, y)) then cells + [Cell(x, y)] else cells, x + 1, y)
  {
    var here := Cell(x, y);
    forall c: Cell
      ensures Before(c, x + 1, y) <==> Before(c, x, y) || c == here
    {
      assert c == Cell(c.x, c.y);
    }
    var more := cells + [here];
    if g.Has(here) {
      assert forall c :: c in more <==> c in cells || c == here;
      forall i | 0 <= i < |cells|
        ensures RowMajor(cells[i], here)
      {
        assert cells[i] in cells;
      }
    }
  }

  lemma AroundRowEnds(g: Grid, centre: Cell, cells: seq<Cell>, y: int)
    requires AroundSoFar(g, centre, cells, centre.x + 2, y)
    ensures AroundSoFar(g, centre, cells, centre.x - 1, y + 1)
  {
    assert forall c :: Near(c, centre) ==> (Before(c, centre.x + 2, y) <==> Before(c, centre.x - 1, y + 1));
  }

  method GetSectorAround(g: Grid, sectorX: int, sectorY: int, out: SectorAround)
    requires out.around.Length == 9
    modifies out, out.around
    ensures out.count <= 9 && IsAround(g, Cell(sectorX, sectorY), out.Cells())
    ensures out.count == Clipped(sectorX, g.width) * Clipped(sectorY, g.height)
  {
    ghost var centre := Cell(sectorX, sectorY);
    out.count := 0;
    for dy := -1 to 2
      invariant out.count == CountRows(sectorY - 1, dy + 1, g.height, Clipped(sectorX, g.width))
      invariant AroundSoFar(g, centre, out.Cells(), sectorX - 1, sectorY + dy)
    {
      GetRowAround(g, sectorX, sectorY, dy, out);
    }
    CountRowsClipped(sectorY, g.height, Clipped(sectorX, g.width));
    assert forall c :: Near(c, centre) ==> Before(c, sectorX - 1, sectorY + 2);
  }

  // The inner loop: one row of three candidates.
  method GetRowAround(g: Grid, sectorX: int, sectorY: int, dy: int, out: SectorAround)
    requires out.around.Length == 9 && out.count <= 6 && -1 <= dy <= 1
    requires AroundSoFar(g, Cell(sectorX, sectorY), out.Cells(), sectorX - 1, sectorY + dy)
    modifies out, out.around
    ensures out.count == old(out.count) + (if 0 <= sectorY + dy < g.height then Clipped(sectorX, g.width) else 0) <= 9
    ensures AroundSoFar(g, Cell(sectorX, sectorY), out.Cells(), sectorX - 1, sectorY + dy + 1)
  {
    ghost var centre, cells := Cell(sectorX, sectorY), out.Cells();
    for dx := -1 to 2
      invariant out.count
             == old(out.count) + (if 0 <= sectorY + dy < g.height then CountIn(sectorX - 1, dx + 1, g.width) else 0)
      invariant out.count == |cells| && out.Cells() == cells
      invariant AroundSoFar(g, centre, cells, sectorX + dx, sectorY + dy)
    {
      var newX := sectorX + dx;
      var newY := sectorY + dy;
      AroundNext(g, centre, cells, newX, newY);
      if newX >= 0 && newX < g.width && newY >= 0 && newY < g.height {
        out.around[out.count] := Cell(newX, newY);
        out.count := out.count + 1;
        cells := cells + [Cell(newX, newY)];
      }
    }
    AroundRowEnds(g, centre, cells, sectorY + dy);
    CountInClipped(sectorX, g.width);
  }

  // ---- the index -----------------------------------------------------------------

  // `listening` sums up the flags the chat loop checks on the other session.
  class Session {
    var shX: int
    var shY: int
    var curSector: Cell
    var oldSector: Cell
    var listening: bool

    constructor ()
      ensures shX == 0 && shY == 0 && curSector == Cell(0, 0) && oldSector == Cell(0, 0) && !listening
    {
      shX, shY, curSector, oldSector, listening := 0, 0, Cell(0, 0), Cell(0, 0), false;
    }
  }

  class SectorIndex {
    const grid: Grid
    var lists: Lists<Session>

    constructor (g: Grid)
      requires g.Valid()
      ensures grid == g && Valid({}) && forall c :: c in lists ==> lists[c] == []
    {
      grid := g;
      lists := map x, y | 0 <= x < g.width && 0 <= y < g.height :: Cell(x, y) := [];
    }

    // Every registered session stands once in the list of its sector, or in no
    // list when that sector is outside the grid; nobody else is indexed.
    ghost predicate Valid(registered: set<Session>)
      reads this, registered
    {
      && grid.Valid() && Covers(lists, grid)
      && (forall s :: s in registered ==> Placed(lists, grid, s, s.curSector))
      && OnlyThese(lists, registered)
    }

    // AddSector: under the cell's lock, append; outside the grid, nothing.
    method AddSector(sectorPos: Cell, session: Session)
      requires Covers(lists, grid)
      modifies this
      ensures lists == Appended(old(lists), sectorPos, session)
    {
      if sectorPos.x >= 0 && sectorPos.x < grid.width && sectorPos.y >= 0 && sectorPos.y < grid.height {
        lists := lists[sectorPos := lists[sectorPos] + [session]];
      }
    }

    // RemoveSector: find and erase one occurrence.
    method RemoveSector(sectorPos: Cell, session: Session)
      requires Covers(lists, grid)
      modifies this
      ensures lists == Erased(old(lists), sectorPos, session)
    {
      if sectorPos.x >= 0 && sectorPos.x < grid.width && sectorPos.y >= 0 && sectorPos.y < grid.height {
        var at := Find(lists[sectorPos], session);
        if at < |lists[sectorPos]| {
          EraseAtFirst(lists[sectorPos], session, at);
          lists := lists[sectorPos := lists[sectorPos][..at] + lists[sectorPos][at + 1..]];
        }
      }
    }

    // The sector half of Packet_CreateCharacter. It overwrites the sector of a
    // session that is registered already and appends it again, so the index is
    // right afterwards exactly if the session stood in no list.
    method Register(session: Session, ghost registered: set<Session>)
      requires Valid(registered)
      modifies this, session`curSector, session`oldSector
      ensures Valid(registered + {session}) <==> session !in registered || !grid.Has(old(session.curSector))
      ensures session.curSector == session.oldSector == grid.CellOf(session.shX, session.shY)
      ensures lists == Appended(old(lists), session.curSector, session)
      ensures forall s :: s in registered && s != session ==> Placed(lists, grid, s, s.curSector)
    {
      ghost var from := session.curSector;
      session.curSector := Cell(Truncated(session.shX, grid.cellWidth), Truncated(session.shY, grid.cellHeight));
      session.oldSector := session.curSector;
      AddSector(session.curSector, session);
      StillIndexedOthers(old(lists), session, session.curSector, registered - {session});
      if session in registered && grid.Has(from) {
        TwiceIndexed(old(lists), session, from, session.curSector);
      } else {
        assert Absent(old(lists), session);
        AppendPlaced(old(lists), grid, session, session.curSector);
      }
    }

    // Appending a session that stands in a list puts it into two, or twice into
    // one.
    lemma TwiceIndexed(before: Lists<Session>, session: Session, from: Cell, to: Cell)
      requires Covers(before, grid) && IndexedAt(before, session, from)
      ensures !Placed(Appended(before, to, session), grid, session, to)
    {
      if to in before {
        assert multiset(before[to] + [session]) == multiset(before[to]) + multiset{session};
      }
      assert Times(Appended(before, to, session)[from], session) > 0;
    }

    // The sector half of CloseSession, also for a session that never had a
    // character: nothing is found then.
    method Unregister(session: Session, ghost registered: set<Session>)
      requires Valid(registered)
      modifies this
      ensures Valid(registered - {session}) && Absent(lists, session)
      ensures lists == Erased(old(lists), session.curSector, session)
      ensures session !in registered ==> lists == old(lists)
    {
      RemoveSector(session.curSector, session);
      if session in registered {
        ErasePlaced(old(lists), grid, session, session.curSector);
      } else {
        assert Absent(old(lists), session);
      }
      StillIndexedOthers(old(lists), session, session.curSector, registered - {session});
    }

    lemma StillIndexedOthers(before: Lists<Session>, moved: Session, c: Cell, others: set<Session>)
      requires Covers(before, grid) && moved !in others
      requires forall s :: s in others ==> Placed(before, grid, s, s.curSector)
      ensures forall s :: s in others ==> Placed(Appended(before, c, moved), grid, s, s.curSector)
      ensures forall s :: s in others ==> Placed(Erased(before, c, moved), grid, s, s.curSector)
      ensures forall d, s :: d in before && s in Erased(before, c, moved)[d] ==> s in before[d]
    {
      forall s | s in others
        ensures Placed(Appended(before, c, moved), grid, s, s.curSector)
        ensures Placed(Erased(before, c, moved), grid, s, s.curSector)
      {
        OthersStay(before, grid, moved, c, s, s.curSector);
      }
      if c in before {
        EraseFirstTakesOne(before[c], moved);
        forall s | s in EraseFirst(before[c], moved)
          ensures s in before[c]
        {
          assert multiset(EraseFirst(before[c], moved))[s] > 0;
        }
      }
    }

    // Sector_UpdateSession.
    method UpdateSession(session: Session, ghost registered: set<Session>) returns (moved: bool)
      requires Valid(registered) && session in registered
      modifies this, session`curSector, session`oldSector
      ensures Valid(registered)
      ensures session.curSector == grid.CellOf(session.shX, session.shY)
      ensures moved <==> session.curSector != old(session.curSector)
      ensures session.oldSector == if moved then old(session.curSector) else old(session.oldSector)
      ensures OthersInOrder(old(lists), lists, session)
      ensures Conserved(old(lists), lists, old(session.curSector), session.curSector)
      ensures lists == DummyMove(old(lists), session, old(session.curSector), session.curSector)
    {
      var newSectorX := Truncated(session.shX, grid.cellWidth);
      var newSectorY := Truncated(session.shY, grid.cellHeight);
      ghost var from := session.curSector;
      if newSectorX == session.curSector.x && newSectorY == session.curSector.y {
        MoveSummary(lists, grid, session, from, from, registered);
        return false;
      }
      RemoveSector(session.curSector, session);
      session.oldSector := session.curSector;
      session.curSector := Cell(newSectorX, newSectorY);
      AddSector(session.curSector, session);
      assert lists == DummyMove(old(lists), session, from, session.curSector);
      MoveSummary(old(lists), grid, session, from, session.curSector, registered);
      return true;
    }
  }

  // Apart from x every list holds the same elements in the same order.
  ghost predicate OthersInOrder(before: Lists<Session>, after: Lists<Session>, x: Session) {
    after.Keys == before.Keys && forall c :: c in before ==> EraseAll(after[c], x) == EraseAll(before[c], x)
  }

  // Any reading that covers both ends of the move finds as many elements as
  // before.
  ghost predicate Conserved(before: Lists<Session>, after: Lists<Session>, from: Cell, to: Cell) {
    after.Keys == before.Keys
    && forall cells: seq<Cell> ::
         (forall c :: c in cells ==> c in before) && Distinct(cells) && from in cells && to in cells
         ==> |Gather(after, cells)| == |Gather(before, cells)|
  }

  // Erase here, append there: x is where it should be, the others where they
  // were.
  lemma MovedLists(before: Lists<Session>, g: Grid, x: Session, from: Cell, to: Cell, registered: set<Session>)
    requires Covers(before, g) && Placed(before, g, x, from) && x in registered && x.curSector == to
    requires forall s :: s in registered && s != x ==> Placed(before, g, s, s.curSector)
    requires OnlyThese(before, registered)
    ensures var after := Appended(Erased(before, from, x), to, x);
            && (forall s :: s in registered ==> Placed(after, g, s, s.curSector))
            && OnlyThese(after, registered)
  {
    var between := Erased(before, from, x);
    var after := Appended(between, to, x);
    ErasePlaced(before, g, x, from);
    AppendPlaced(between, g, x, to);
    forall s | s in registered && s != x
      ensures Placed(after, g, s, s.curSector)
    {
      OthersStay(before, g, x, from, s, s.curSector);
      OthersStay(between, g, x, to, s, s.curSector);
    }
    forall c, s | c in after && s in after[c]
      ensures s in registered
    {
      if s != x {
        CountsOfOthers(before[c], x, s);
        CountsOfOthers(between[c], x, s);
      }
    }
  }

  ghost predicate OnlyThese(lists: Lists<Session>, registered: set<Session>) {
    forall c, s :: c in lists && s in lists[c] ==> s in registered
  }

  // std::find: the index of the first occurrence, or the length.
  method Find(s: seq<Session>, x: Session) returns (at: nat)
    ensures at <= |s| && x !in s[..at] && (at < |s| ==> s[at] == x)
  {
    at := 0;
    while at < |s| && s[at] != x
      invariant at <= |s| && x !in s[..at]
    {
      at := at + 1;
    }
  }

  lemma {:induction false} EraseAtFirst(s: seq<Session>, x: Session, at: nat)
    requires at < |s| && s[at] == x && x !in s[..at]
    ensures EraseFirst(s, x) == s[..at] + s[at + 1..]
    decreases at
  {
    if at > 0 {
      assert s[0] in s[..at];
      assert s[1..][..at - 1] == s[..at][1..];
      EraseAtFirst(s[1..], x, at - 1);
    }
  }

  lemma MoveSummary(before: Lists<Session>, g: Grid, x: Session, from: Cell, to: Cell, registered: set<Session>)
    requires Covers(before, g) && Placed(before, g, x, from) && x in registered && x.curSector == to
    requires forall s :: s in registered && s != x ==> Placed(before, g, s, s.curSector)
    requires OnlyThese(before, registered)
    ensures var after := DummyMove(before, x, from, to);
            && (forall s :: s in registered ==> Placed(after, g, s, s.curSector))
            && OnlyThese(after, registered) && OthersInOrder(before, after, x) && Conserved(before, after, from, to)
  {
    if from != to {
      MovedLists(before, g, x, from, to, registered);
      MoveKeepsOrder(before, x, from, to);
      MoveConserves(before, x, from, to);
    }
  }

  lemma MoveKeepsOrder(before: Lists<Session>, x: Session, from: Cell, to: Cell)
    ensures OthersInOrder(before, Appended(Erased(before, from, x), to, x), x)
  {
    var between := Erased(before, from, x);
    forall c | c in before
      ensures EraseAll(Appended(between, to, x)[c], x) == EraseAll(before[c], x)
    {
      EraseFirstKeepsOrder(before[c], x);
      AppendKeepsOrder(between[c], x);
    }
  }

  lemma MoveConserves(before: Lists<Session>, x: Session, from: Cell, to: Cell)
    requires from in before ==> IndexedAt(before, x, from)
    ensures Conserved(before, Appended(Erased(before, from, x), to, x), from, to)
  {
    var between := Erased(before, from, x);
    var after := Appended(between, to, x);
    forall cells: seq<Cell> |
      (forall c :: c in cells ==> c in before) && Distinct(cells) && from in cells && to in cells
      ensures |Gather(after, cells)| == |Gather(before, cells)|
    {
      GatherCount(before, between, cells, from);
      GatherCount(between, after, cells, to);
    }
  }

  // ---- reading through the index ---------------------------------------------------

  // The lists of the cells around a centre hold every registered session whose
  // sector is in the grid and within one step of the centre, once, and nobody
  // else: the same a scan over all sessions finds.
  lemma AroundEqualsScan(index: SectorIndex, registered: set<Session>, centre: Cell, cells: seq<Cell>, s: Session)
    requires index.Valid(registered) && IsAround(index.grid, centre, cells)
    ensures Times(Gather(index.lists, cells), s)
         == if s in registered && index.grid.Has(s.curSector) && Near(s.curSector, centre) then 1 else 0
  {
    assert Distinct(cells) by {
      assert forall i, j :: 0 <= i < j < |cells| ==> RowMajor(cells[i], cells[j]);
    }
    if s in registered && index.grid.Has(s.curSector) {
      GatherFinds(index.lists, cells, s, s.curSector);
    } else {
      assert Absent(index.lists, s);
      GatherMisses(index.lists, cells, s);
    }
  }

  // a hears b when b is read from the cells around a.
  ghost predicate Hears(index: SectorIndex, a: Session, b: Session)
    reads index, a
  {
    exists cells :: IsAround(index.grid, a.curSector, cells) && (forall c :: c in cells ==> c in index.lists)
                 && b in Gather(index.lists, cells)
  }

  lemma HearingIsMutual(index: SectorIndex, registered: set<Session>, a: Session, b: Session)
    requires index.Valid(registered) && a in registered && b in registered
    requires index.grid.Has(a.curSector) && index.grid.Has(b.curSector)
    ensures Hears(index, a, b) <==> Hears(index, b, a)
    ensures Hears(index, a, b) <==> Near(a.curSector, b.curSector)
  {
    HearsWhenNear(index, registered, a, b);
    HearsWhenNear(index, registered, b, a);
  }

  lemma HearsWhenNear(index: SectorIndex, registered: set<Session>, a: Session, b: Session)
    requires index.Valid(registered) && b in registered && index.grid.Has(b.curSector)
    ensures Hears(index, a, b) <==> Near(b.curSector, a.curSector)
  {
    var around := AroundExists(index.grid, a.curSector);
    AroundEqualsScan(index, registered, a.curSector, around, b);
    if Hears(index, a, b) {
      var cells :| IsAround(index.grid, a.curSector, cells) && (forall c :: c in cells ==> c in index.lists)
                && b in Gather(index.lists, cells);
      AroundIsUnique(index.grid, a.curSector, cells, around);
    }
  }

  // The neighbourhood as a value: the nine candidates, kept if they exist.
  lemma AroundExists(g: Grid, centre: Cell) returns (cells: seq<Cell>)
    ensures IsAround(g, centre, cells)
  {
    cells := [];
    for dy := -1 to 2
      invariant AroundSoFar(g, centre, cells, centre.x - 1, centre.y + dy)
    {
      for dx := -1 to 2
        invariant AroundSoFar(g, centre, cells, centre.x + dx, centre.y + dy)
      {
        AroundNext(g, centre, cells, centre.x + dx, centre.y + dy);
        cells := if g.Has(Cell(centre.x + dx, centre.y + dy)) then cells + [Cell(centre.x + dx, centre.y + dy)]
                 else cells;
      }
      AroundRowEnds(g, centre, cells, centre.y + dy);
    }
    assert forall c :: Near(c, centre) ==> Before(c, centre.x - 1, centre.y + 2);
  }

  // The audience of a chat line: whoever listens in the cells around the
  // speaker, without the speaker.
  method Audience(index: SectorIndex, speaker: Session, ghost registered: set<Session>) returns (audience: seq<Session>)
    requires index.Valid(registered)
    ensures forall s :: Times(audience, s) == if InAudience(index.grid, registered, speaker, s) then 1 else 0
  {
    var aroundSectors := new SectorAround();
    GetSectorAround(index.grid, speaker.curSector.x, speaker.curSector.y, aroundSectors);
    var cells := aroundSectors.Cells();
    audience := ListenersAround(index.lists, cells, speaker);
    forall s
      ensures Times(audience, s) == if InAudience(index.grid, registered, speaker, s) then 1 else 0
    {
      AroundEqualsScan(index, registered, speaker.curSector, cells, s);
      ListenersCount(Gather(index.lists, cells), speaker, s);
    }
  }

  ghost predicate InAudience(g: Grid, registered: set<Session>, speaker: Session, s: Session)
    reads speaker, s
  {
    s in registered && s != speaker && s.listening && g.Has(s.curSector) && Near(s.curSector, speaker.curSector)
  }

  method ListenersAround(lists: Lists<Session>, cells: seq<Cell>, speaker: Session) returns (audience: seq<Session>)
    requires forall c :: c in cells ==> c in lists
    ensures audience == Listeners(Gather(lists, cells), speaker)
  {
    audience := [];
    for i := 0 to |cells|
      invariant audience == Listeners(Gather(lists, cells[..i]), speaker)
    {
      var list := lists[cells[i]];
      ghost var earlier := audience;
      for j := 0 to |list|
        invariant audience == earlier + Listeners(list[..j], speaker)
      {
        assert list[..j + 1][..j] == list[..j];
        if list[j] == speaker {
          continue;
        }
        if !list[j].listening {
          continue;
        }
        audience := audience + [list[j]];
      }
      assert list[..|list|] == list;
      ListenersNextCell(lists, cells, i, speaker);
    }
    assert cells[..|cells|] == cells;
  }

  lemma ListenersNextCell(lists: Lists<Session>, cells: seq<Cell>, i: nat, speaker: Session)
    requires i < |cells| && forall c :: c in cells ==> c in lists
    ensures Listeners(Gather(lists, cells[..i + 1]), speaker)
         == Listeners(Gather(lists, cells[..i]), speaker) + Listeners(lists[cells[i]], speaker)
  {
    assert cells[..i + 1] == cells[..i] + [cells[i]];
    GatherSplit(lists, cells[..i], cells[i]);
    ListenersOfBoth(Gather(lists, cells[..i]), lists[cells[i]], speaker);
  }

  function Listeners(list: seq<Session>, speaker: Session): seq<Session>
    reads list
  {
    if list == [] then []
    else Listeners(list[..|list| - 1], speaker)
         + (if list[|list| - 1] != speaker && list[|list| - 1].listening then [list[|list| - 1]] else [])
  }

  lemma {:induction false} ListenersCount(list: seq<Session>, speaker: Session, s: Session)
    ensures Times(Listeners(list, speaker), s) == if s != speaker && s.listening then Times(list, s) else 0
    decreases |list|
  {
    if list != [] {
      var n := |list| - 1;
      ListenersCount(list[..n], speaker, s);
      assert list == list[..n] + [list[n]];
    }
  }

  lemma {:induction false} ListenersOfBoth(a: seq<Session>, b: seq<Session>, speaker: Session)
    ensures Listeners(a + b, speaker) == Listeners(a, speaker) + Listeners(b, speaker)
    decreases |b|
  {
    if b == [] {
      assert a + b == a;
    } else {
      var n := |b| - 1;
      assert (a + b)[..|a + b| - 1] == a + b[..n];
      ListenersOfBoth(a, b[..n], speaker);
    }
  }

  lemma {:induction false} GatherSplit(lists: Lists<Session>, cells: seq<Cell>, last: Cell)
    requires last in lists && forall c :: c in cells ==> c in lists
    ensures Gather(lists, cells + [last]) == Gather(lists, cells) + lists[last]
    decreases |cells|
  {
    if cells != [] {
      GatherSplit(lists, cells[1..], last);
      assert (cells + [last])[1..] == cells[1..] + [last];
    }
  }
}
