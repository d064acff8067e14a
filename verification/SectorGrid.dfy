// The grid of sector lists as values: which cell a position falls in, the
// lists with their two updates, and what it means that the index is right.
// The list element type is left open; the object-level index, the server's
// index and the interleaving models share these definitions.
module SectorGrid {
  import opened Integers

  datatype Cell = Cell(x: int, y: int)

  datatype Grid = Grid(width: nat, height: nat, cellWidth: nat, cellHeight: nat) {
    predicate Valid() {
      cellWidth > 0 && cellHeight > 0
    }

    predicate Has(c: Cell) {
      0 <= c.x < width && 0 <= c.y < height
    }

    // The sector coordinates of a position.
    function CellOf(x: int, y: int): Cell
      requires Valid()
    {
      Cell(Truncated(x, cellWidth), Truncated(y, cellHeight))
    }
  }

  // A position maps into the grid exactly when it lies in the covered area or
  // in the strip, less than one cell wide, that truncation folds onto row or
  // column 0.
  lemma CellOfInGrid(g: Grid, x: int, y: int)
    requires g.Valid()
    ensures g.Has(g.CellOf(x, y)) <==> InSpan(x, g.width, g.cellWidth) && InSpan(y, g.height, g.cellHeight)
                                       && g.width > 0 && g.height > 0
  {
    TruncatedInSpan(x, g.width, g.cellWidth);
    TruncatedInSpan(y, g.height, g.cellHeight);
  }

  predicate InSpan(a: int, cells: nat, size: nat) {
    a + size > 0 && a < size * cells
  }

  lemma TruncatedInSpan(a: int, cells: nat, size: nat)
    requires size > 0
    ensures 0 <= Truncated(a, size) < cells <==> InSpan(a, cells, size) && cells > 0
  {
    if a >= 0 {
      QuotientBelow(a, cells, size);
    } else {
      QuotientBelow(-a, 1, size);
      Scale(size, 0, cells);
    }
  }

  lemma QuotientBelow(n: nat, cells: nat, size: nat)
    requires size > 0
    ensures n / size < cells <==> n < size * cells
  {
    var q := n / size;
    assert n == size * q + n % size;
    if q < cells {
      Scale(size, q + 1, cells);
      assert size * (q + 1) == size * q + size;
    } else {
      Scale(size, cells, q);
    }
  }

  lemma Scale(size: nat, a: nat, b: nat)
    requires a <= b
    ensures 0 <= size * a <= size * b
  {
  }

  predicate Near(a: Cell, b: Cell) {
    -1 <= a.x - b.x <= 1 && -1 <= a.y - b.y <= 1
  }

  // ---- the lists ---------------------------------------------------------------

  type Lists<T> = map<Cell, seq<T>>

  // One list per cell of the grid.
  ghost predicate Covers<T>(lists: Lists<T>, g: Grid) {
    forall c :: c in lists <==> g.Has(c)
  }

  // std::find and erase: the first occurrence goes.
  function EraseFirst<T(==)>(s: seq<T>, x: T): (r: seq<T>)
    ensures |r| == if x in s then |s| - 1 else |s|
    ensures x !in s ==> r == s
  {
    if s == [] then []
    else if s[0] == x then s[1..]
    else [s[0]] + EraseFirst(s[1..], x)
  }

  // std::list::remove: every occurrence goes.
  function EraseAll<T(==)>(s: seq<T>, x: T): (r: seq<T>)
    ensures x !in r && |r| <= |s|
    ensures |r| == |s| <==> x !in s
    ensures x !in s ==> r == s
  {
    if s == [] then []
    else if s[0] == x then EraseAll(s[1..], x)
    else [s[0]] + EraseAll(s[1..], x)
  }

  // Erasing takes away one occurrence of x, and leaves the others in their
  // order.
  lemma {:induction false} EraseFirstTakesOne<T>(s: seq<T>, x: T)
    ensures multiset(EraseFirst(s, x)) == multiset(s) - multiset{x}
  {
    if s != [] {
      assert s == [s[0]] + s[1..];
      if s[0] != x {
        EraseFirstTakesOne(s[1..], x);
      }
    }
  }

  lemma {:induction false} EraseFirstKeepsOrder<T>(s: seq<T>, x: T)
    ensures EraseAll(EraseFirst(s, x), x) == EraseAll(s, x)
  {
    if s != [] && s[0] != x {
      EraseFirstKeepsOrder(s[1..], x);
    }
  }

  lemma {:induction false} AppendKeepsOrder<T>(s: seq<T>, x: T)
    ensures EraseAll(s + [x], x) == EraseAll(s, x)
  {
    if s != [] {
      AppendKeepsOrder(s[1..], x);
      assert (s + [x])[1..] == s[1..] + [x];
    }
  }

  // When x stands there once, both ways of erasing do the same.
  lemma {:induction false} EraseOnce<T>(s: seq<T>, x: T)
    requires multiset(s)[x] <= 1
    ensures EraseFirst(s, x) == EraseAll(s, x)
  {
    if s != [] {
      assert s == [s[0]] + s[1..];
      if s[0] == x {
        assert multiset(s[1..])[x] == 0;
        assert x !in s[1..];
      } else {
        EraseOnce(s[1..], x);
      }
    }
  }

  function Appended<T>(lists: Lists<T>, c: Cell, x: T): (r: Lists<T>)
    ensures r.Keys == lists.Keys
  {
    if c in lists then lists[c := lists[c] + [x]] else lists
  }

  function Erased<T(==)>(lists: Lists<T>, c: Cell, x: T): (r: Lists<T>)
    ensures r.Keys == lists.Keys
  {
    if c in lists then lists[c := EraseFirst(lists[c], x)] else lists
  }

  // The dummy client's move: leave the lists alone within a cell, else erase one occurrence and append.
  function DummyMove<T(==)>(lists: Lists<T>, x: T, from: Cell, to: Cell): (r: Lists<T>)
    ensures r.Keys == lists.Keys
  {
    if from == to then lists else Appended(Erased(lists, from, x), to, x)
  }

  // ---- where an element is indexed ------------------------------------------------

  ghost function Times<T>(s: seq<T>, x: T): (n: nat)
    ensures n == 0 <==> x !in s
  {
    multiset(s)[x]
  }

  // x stands once in the list of c and in no other list.
  ghost predicate IndexedAt<T>(lists: Lists<T>, x: T, c: Cell) {
    c in lists && Times(lists[c], x) == 1 && forall d :: d in lists && d != c ==> Times(lists[d], x) == 0
  }

  ghost predicate Absent<T>(lists: Lists<T>, x: T) {
    forall d :: d in lists ==> Times(lists[d], x) == 0
  }

  // In its cell if that cell exists, nowhere otherwise.
  ghost predicate Placed<T>(lists: Lists<T>, g: Grid, x: T, c: Cell) {
    if g.Has(c) then IndexedAt(lists, x, c) else Absent(lists, x)
  }

  lemma ErasePlaced<T>(lists: Lists<T>, g: Grid, x: T, c: Cell)
    requires Covers(lists, g) && Placed(lists, g, x, c)
    ensures Absent(Erased(lists, c, x), x)
  {
    if g.Has(c) {
      EraseFirstTakesOne(lists[c], x);
    }
  }

  lemma AppendPlaced<T>(lists: Lists<T>, g: Grid, x: T, c: Cell)
    requires Covers(lists, g) && Absent(lists, x)
    ensures Placed(Appended(lists, c, x), g, x, c)
  {
  }

  // Neither update touches the place of another element.
  lemma OthersStay<T>(lists: Lists<T>, g: Grid, x: T, c: Cell, y: T, d: Cell)
    requires Covers(lists, g) && y != x
    ensures Placed(Erased(lists, c, x), g, y, d) <==> Placed(lists, g, y, d)
    ensures Placed(Appended(lists, c, x), g, y, d) <==> Placed(lists, g, y, d)
    ensures Absent(Erased(lists, c, x), y) <==> Absent(lists, y)
    ensures Absent(Appended(lists, c, x), y) <==> Absent(lists, y)
  {
    if c in lists {
      CountsOfOthers(lists[c], x, y);
      SameCountSamePlace(lists, Erased(lists, c, x), g, y, d);
      SameCountSamePlace(lists, Appended(lists, c, x), g, y, d);
    }
  }

  lemma CountsOfOthers<T>(s: seq<T>, x: T, y: T)
    requires y != x
    ensures Times(EraseFirst(s, x), y) == Times(s, y) == Times(s + [x], y)
  {
    EraseFirstTakesOne(s, x);
    assert multiset(s + [x]) == multiset(s) + multiset{x};
  }

  lemma SameCountSamePlace<T>(before: Lists<T>, after: Lists<T>, g: Grid, y: T, d: Cell)
    requires before.Keys == after.Keys
    requires forall e :: e in before ==> Times(before[e], y) == Times(after[e], y)
    requires Covers(before, g)
    ensures Placed(after, g, y, d) <==> Placed(before, g, y, d)
    ensures Absent(after, y) <==> Absent(before, y)
  {
  }

  // ---- reading several lists --------------------------------------------------------

  function Gather<T>(lists: Lists<T>, cells: seq<Cell>): (r: seq<T>)
    requires forall c :: c in cells ==> c in lists
  {
    if cells == [] then [] else lists[cells[0]] + Gather(lists, cells[1..])
  }

  predicate Distinct(cells: seq<Cell>) {
    forall i, j :: 0 <= i < j < |cells| ==> cells[i] != cells[j]
  }

  // An element indexed at c is read once if c is among the cells read, and
  // not at all otherwise.
  lemma {:induction false} GatherFinds<T>(lists: Lists<T>, cells: seq<Cell>, x: T, c: Cell)
    requires (forall d :: d in cells ==> d in lists) && Distinct(cells) && IndexedAt(lists, x, c)
    ensures Times(Gather(lists, cells), x) == if c in cells then 1 else 0
    decreases |cells|
  {
    if cells != [] {
      GatherFinds(lists, cells[1..], x, c);
      assert cells == [cells[0]] + cells[1..];
      if cells[0] == c {
        assert c !in cells[1..];
      } else {
        assert Times(lists[cells[0]], x) == 0;
      }
    }
  }

  lemma {:induction false} GatherMisses<T>(lists: Lists<T>, cells: seq<Cell>, x: T)
    requires (forall d :: d in cells ==> d in lists) && Absent(lists, x)
    ensures Times(Gather(lists, cells), x) == 0
    decreases |cells|
  {
    if cells != [] {
      GatherMisses(lists, cells[1..], x);
      assert Times(lists[cells[0]], x) == 0;
    }
  }

  // Changing one list changes the number of elements read by its own change.
  lemma {:induction false} GatherCount<T>(before: Lists<T>, after: Lists<T>, cells: seq<Cell>, c: Cell)
    requires (forall d :: d in cells ==> d in before && d in after) && Distinct(cells) && c in cells
    requires forall d :: d in cells && d != c ==> before[d] == after[d]
    ensures |Gather(after, cells)| - |Gather(before, cells)| == |after[c]| - |before[c]|
    decreases |cells|
  {
    assert cells == [cells[0]] + cells[1..];
    if cells[0] == c {
      GatherSame(before, after, cells[1..]);
    } else {
      GatherCount(before, after, cells[1..], c);
    }
  }

  lemma {:induction false} GatherSame<T>(before: Lists<T>, after: Lists<T>, cells: seq<Cell>)
    requires forall d :: d in cells ==> d in before && d in after && before[d] == after[d]
    ensures Gather(after, cells) == Gather(before, cells)
    decreases |cells|
  {
    if cells != [] {
      GatherSame(before, after, cells[1..]);
    }
  }

  // ---- the neighbourhood ------------------------------------------------------------

  predicate RowMajor(a: Cell, b: Cell) {
    a.y < b.y || (a.y == b.y && a.x < b.x)
  }

  // The cells of the grid within one step of the centre, row by row. At most
  // one sequence satisfies this.
  ghost predicate IsAround(g: Grid, centre: Cell, cells: seq<Cell>) {
    && (forall c :: c in cells <==> g.Has(c) && Near(c, centre))
    && forall i, j :: 0 <= i < j < |cells| ==> RowMajor(cells[i], cells[j])
  }

  lemma {:induction false} AroundIsUnique(g: Grid, centre: Cell, a: seq<Cell>, b: seq<Cell>)
    requires IsAround(g, centre, a) && IsAround(g, centre, b)
    ensures a == b
  {
    SortedUnique(a, b);
  }

  lemma HasElement(s: seq<Cell>)
    requires s != []
    ensures exists c :: c in s
  {
    assert s[0] in s;
  }

  lemma {:induction false} SortedUnique(a: seq<Cell>, b: seq<Cell>)
    requires forall c :: c in a <==> c in b
    requires forall i, j :: 0 <= i < j < |a| ==> RowMajor(a[i], a[j])
    requires forall i, j :: 0 <= i < j < |b| ==> RowMajor(b[i], b[j])
    ensures a == b
    decreases |a|
  {
    if a == [] {
      if b != [] {
        HasElement(b);
        assert false;
      }
    } else {
      assert a[0] in a && b != [] by {
        assert a[0] in b;
      }
      assert b[0] in b && b[0] in a;
      assert a[0] == b[0];
      forall c
        ensures c in a[1..] <==> c in b[1..]
      {
        assert a == [a[0]] + a[1..] && b == [b[0]] + b[1..];
        assert a[0] !in a[1..] && b[0] !in b[1..];
        assert c in a <==> c == a[0] || c in a[1..];
        assert c in b <==> c == b[0] || c in b[1..];
      }
      SortedUnique(a[1..], b[1..]);
    }
  }

  // How many of the three coordinates around `centre` exist.
  function Clipped(centre: int, limit: nat): (n: nat)
    ensures n <= 3
  {
    var low, high := if centre - 1 < 0 then 0 else centre - 1, if centre + 1 >= limit then limit - 1 else centre + 1;
    if high < low then 0 else high - low + 1
  }
}
