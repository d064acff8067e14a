// The dummy client's circular byte buffer: one cell is always kept empty, so
// equal positions mean "empty". It offers a copying interface (Enqueue,
// Dequeue, Peek) and a zero-copy one (the socket reads and writes the cells
// directly, MoveRear and MoveFront publish and release them). Both interfaces
// act on one abstract queue, Contents().
module RingBuffers {
  import opened Bytes

  // ---- circular windows over the cells ------------------------------------

  // Where index i of a circular store of `size` cells lies.
  function Wrap(i: nat, size: nat): (r: nat)
    requires i < 2 * size
    ensures r < size
  {
    if i < size then i else i - size
  }

  // The code advances a position with the remainder operator.
  lemma WrapIsRemainder(i: nat, size: nat)
    requires i < 2 * size
    ensures Wrap(i, size) == i % size
  {
  }

  // A position is in range; an unallocated buffer has no cells and position 0.
  predicate InRange(pos: nat, size: nat) {
    pos < size || (size == 0 && pos == 0)
  }

  // The n cells from `pos` on, going round the end of the store.
  function Window(cells: seq<Byte>, pos: nat, n: nat): (w: seq<Byte>)
    requires InRange(pos, |cells|) && n <= |cells|
    ensures |w| == n
    ensures forall k :: 0 <= k < n ==> w[k] == cells[Wrap(pos + k, |cells|)]
  {
    seq(n, k requires 0 <= k < n => cells[Wrap(pos + k, |cells|)])
  }

  // Two neighbouring windows make one.
  lemma WindowSplit(cells: seq<Byte>, pos: nat, m: nat, n: nat)
    requires pos < |cells| && m < |cells| && m + n <= |cells|
    ensures Window(cells, pos, m + n)
         == Window(cells, pos, m) + Window(cells, Wrap(pos + m, |cells|), n)
  {
  }

  // Writing the cell just past a window extends the window by that byte.
  lemma WindowWrite(cells: seq<Byte>, pos: nat, n: nat, x: Byte)
    requires pos < |cells| && n < |cells|
    ensures Window(cells[Wrap(pos + n, |cells|) := x], pos, n + 1) == Window(cells, pos, n) + [x]
  {
  }

  // A window is one memory run, or the two runs around the end of the store.
  lemma WindowSlices(cells: seq<Byte>, pos: nat, n: nat)
    requires pos < |cells| && n <= |cells|
    ensures pos + n <= |cells| ==> Window(cells, pos, n) == cells[pos..pos + n]
    ensures pos + n >= |cells| ==> Window(cells, pos, n) == cells[pos..] + cells[..pos + n - |cells|]
  {
  }

  // ---- the bytes held between two positions ---------------------------------

  // How far the write position is ahead of the read position.
  function Used(readPos: nat, writePos: nat, size: nat): (n: nat)
    requires InRange(readPos, size) && InRange(writePos, size)
    ensures InRange(n, size)
    ensures size > 0 ==> Wrap(readPos + n, size) == writePos
  {
    if writePos >= readPos then writePos - readPos else size - (readPos - writePos)
  }

  function Held(cells: seq<Byte>, readPos: nat, writePos: nat): (q: seq<Byte>)
    requires InRange(readPos, |cells|) && InRange(writePos, |cells|)
    ensures |q| == Used(readPos, writePos, |cells|)
  {
    Window(cells, readPos, Used(readPos, writePos, |cells|))
  }

  // Moving the write position over n free cells appends those n cells.
  lemma AdvanceWrite(cells: seq<Byte>, readPos: nat, writePos: nat, n: nat)
    requires readPos < |cells| && writePos < |cells|
    requires Used(readPos, writePos, |cells|) + n < |cells|
    ensures (writePos + n) % |cells| == Wrap(writePos + n, |cells|)
    ensures Held(cells, readPos, Wrap(writePos + n, |cells|))
         == Held(cells, readPos, writePos) + Window(cells, writePos, n)
  {
    WrapIsRemainder(writePos + n, |cells|);
    WindowSplit(cells, readPos, Used(readPos, writePos, |cells|), n);
  }

  // Moving the read position over n held cells removes the first n bytes.
  lemma AdvanceRead(cells: seq<Byte>, readPos: nat, writePos: nat, n: nat)
    requires readPos < |cells| && writePos < |cells|
    requires n <= Used(readPos, writePos, |cells|)
    ensures (readPos + n) % |cells| == Wrap(readPos + n, |cells|)
    ensures Window(cells, readPos, n) + Held(cells, Wrap(readPos + n, |cells|), writePos)
         == Held(cells, readPos, writePos)
  {
    WrapIsRemainder(readPos + n, |cells|);
    WindowSplit(cells, readPos, n, Used(readPos, writePos, |cells|) - n);
  }

  // Storing a byte at the write position of a buffer that is not full and
  // stepping over it appends the byte.
  lemma StoreAndAdvance(cells: seq<Byte>, readPos: nat, writePos: nat, x: Byte)
    requires readPos < |cells| && writePos < |cells|
    requires Used(readPos, writePos, |cells|) + 1 < |cells|
    ensures (writePos + 1) % |cells| == Wrap(writePos + 1, |cells|)
    ensures Held(cells[writePos := x], readPos, Wrap(writePos + 1, |cells|))
         == Held(cells, readPos, writePos) + [x]
  {
    WrapIsRemainder(writePos + 1, |cells|);
    WindowWrite(cells, readPos, Used(readPos, writePos, |cells|), x);
  }

  // Fetching the byte at the read position and stepping over it.
  lemma FetchAndAdvance(cells: seq<Byte>, readPos: nat, writePos: nat)
    requires readPos < |cells| && writePos < |cells| && Held(cells, readPos, writePos) != []
    ensures (readPos + 1) % |cells| == Wrap(readPos + 1, |cells|)
    ensures Held(cells, readPos, writePos) != [] && cells[readPos] == Held(cells, readPos, writePos)[0]
    ensures Held(cells, Wrap(readPos + 1, |cells|), writePos) == Held(cells, readPos, writePos)[1..]
  {
    AdvanceRead(cells, readPos, writePos, 1);
    assert Window(cells, readPos, 1) == [cells[readPos]];
  }

  // Cells outside the held window can change without being noticed.
  lemma FreeCellsIrrelevant(a: seq<Byte>, b: seq<Byte>, readPos: nat, writePos: nat)
    requires |a| == |b| && readPos < |a| && writePos < |a|
    requires forall j :: 0 <= j < |a|
                         && (if readPos <= writePos then readPos <= j < writePos else j < writePos || readPos <= j)
               ==> a[j] == b[j]
    ensures Held(a, readPos, writePos) == Held(b, readPos, writePos)
  {
  }

  function Min(a: int, b: int): int {
    if a <= b then a else b
  }

  // memcpy between two stores.
  method MemCopy(dst: array<Byte>, at: nat, src: array<Byte>, from: nat, n: nat)
    requires dst != src && at + n <= dst.Length && from + n <= src.Length
    modifies dst
    ensures dst[at..at + n] == src[from..from + n]
    ensures dst[..at] == old(dst[..at]) && dst[at + n..] == old(dst[at + n..])
  {
    forall k | 0 <= k < n {
      dst[at + k] := src[from + k];
    }
  }

  // A store filled from index 0 holds exactly its first bytes.
  lemma HeldFromZero(cells: seq<Byte>, n: nat)
    requires InRange(n, |cells|)
    ensures Held(cells, 0, n) == cells[..n]
  {
  }

  // Bytes taken out and bytes held still add up after n more are taken.
  lemma TakeFromHistory(put: seq<Byte>, taken: seq<Byte>, held: seq<Byte>, n: nat)
    requires put == taken + held && n <= |held|
    ensures put == (taken + held[..n]) + held[n..]
  {
  }

  lemma PutToHistory(put: seq<Byte>, taken: seq<Byte>, held: seq<Byte>, more: seq<Byte>)
    requires put == taken + held
    ensures put + more == taken + (held + more)
  {
  }

  // ---- the buffer ----------------------------------------------------------

  class RingBuffer {
    var buffer: array<Byte>
    var bufferSize: nat
    var readPos: nat
    var writePos: nat
    var resizeCnt: nat

    // What the specification remembers: the size at birth, and the bytes put
    // in and taken out since birth or the last ClearBuffer.
    ghost const initialSize: nat
    ghost var put: seq<Byte>
    ghost var taken: seq<Byte>

    ghost predicate Shape()
      reads this
    {
      buffer.Length == bufferSize && InRange(readPos, bufferSize) && InRange(writePos, bufferSize)
    }

    ghost predicate Valid()
      reads this, buffer
    {
      && Shape()
      && GrowthWithinBudget(initialSize, bufferSize, resizeCnt)
      && put == taken + Contents()
    }

    // The queue the buffer stands for.
    ghost function Contents(): (q: seq<Byte>)
      requires Shape()
      reads this, buffer
    {
      Held(buffer[..], readPos, writePos)
    }

    // The n cells that MoveRear(n) would publish.
    ghost function Rear(n: nat): (q: seq<Byte>)
      requires Shape() && n <= bufferSize
      reads this, buffer
    {
      Window(buffer[..], writePos, n)
    }

    // Every method leaves these alone unless it says otherwise.
    twostate predicate SameStore()
      reads this
    {
      buffer == old(buffer) && bufferSize == old(bufferSize) && resizeCnt == old(resizeCnt)
    }

    // The buffer a Session is born with is RingBuffer(1000); the default one
    // owns no cells.
    constructor Default()
      ensures Valid() && fresh(buffer) && Contents() == [] && bufferSize == 0 && initialSize == 0
      ensures put == [] && taken == []
    {
      buffer := new Byte[0];
      bufferSize, readPos, writePos, resizeCnt := 0, 0, 0, 0;
      initialSize, put, taken := 0, [], [];
    }

    constructor (size: nat)
      ensures Valid() && fresh(buffer) && Contents() == [] && bufferSize == size && initialSize == size
      ensures put == [] && taken == []
    {
      buffer := new Byte[size];
      bufferSize, readPos, writePos, resizeCnt := size, 0, 0, 0;
      initialSize, put, taken := size, [], [];
    }

    // The number of bytes held: the one count below bufferSize that leads
    // from the read position round to the write position.
    function GetUseSize(): (n: nat)
      requires Shape()
      reads this, buffer
      ensures n == |Contents()|
    {
      if writePos >= readPos then writePos - readPos else bufferSize - (readPos - writePos)
    }

    // One cell stays empty; a buffer without cells reports -1.
    function GetFreeSize(): (n: int)
      requires Shape()
      reads this, buffer
      ensures n + |Contents()| == bufferSize - 1
      ensures -1 <= n < bufferSize
    {
      bufferSize - 1 - GetUseSize()
    }

    function DirectEnqueueSize(): (n: int)
      requires Shape()
      reads this, buffer
      ensures bufferSize > 0 ==> n == Min(GetFreeSize(), bufferSize - writePos)
      ensures bufferSize == 0 ==> n == -1
    {
      if writePos >= readPos then
        bufferSize - writePos - (if readPos == 0 then 1 else 0)
      else
        readPos - writePos - 1
    }

    function DirectDequeueSize(): (n: nat)
      requires Shape()
      reads this, buffer
      ensures n == Min(|Contents()|, bufferSize - readPos)
    {
      if readPos > writePos then bufferSize - readPos
      else if readPos < writePos then writePos - readPos
      else 0
    }

    predicate IsFull()
      requires Shape()
      reads this, buffer
      ensures IsFull() <==> |Contents()| + 1 == bufferSize
    {
      GetFreeSize() == 0
    }

    predicate IsEmpty()
      requires Shape()
      reads this, buffer
      ensures IsEmpty() <==> Contents() == []
    {
      assert IsEmptyBySize: readPos == writePos <==> GetUseSize() == 0;
      readPos == writePos
    }

    method Enqueue(data: seq<Byte>, size: int) returns (r: int)
      requires Valid() && size <= |data|
      modifies this, buffer
      ensures Valid() && SameStore() && readPos == old(readPos)
      ensures r == if 0 < size <= old(GetFreeSize()) then size else 0
      ensures Contents() == old(Contents()) + data[..r]
      ensures put == old(put) + data[..r] && taken == old(taken)
    {
      if size <= 0 || size > GetFreeSize() {
        return 0;
      }
      ghost var before := Contents();
      for i := 0 to size
        invariant SameStore() && Shape() && readPos == old(readPos) && taken == old(taken) && put == old(put)
        invariant |before| + size < bufferSize
        invariant Held(buffer[..], readPos, writePos) == before + data[..i]
      {
        StoreAndAdvance(buffer[..], readPos, writePos, data[i]);
        ghost var cells := buffer[..];
        buffer[writePos] := data[i];
        assert buffer[..] == cells[writePos := data[i]];
        writePos := (writePos + 1) % bufferSize;
        assert data[..i + 1] == data[..i] + [data[i]];
        assert before + data[..i + 1] == (before + data[..i]) + [data[i]];
      }
      PutToHistory(put, taken, before, data[..size]);
      put := put + data[..size];
      return size;
    }

    method Peek(data: array<Byte>, size: int) returns (r: int)
      requires Valid() && size <= data.Length && data != buffer
      modifies data
      ensures Valid() && Contents() == old(Contents())
      ensures r == if 0 < size <= |Contents()| then size else 0
      ensures data[..r] == Contents()[..r] && data[r..] == old(data[r..])
    {
      if size <= 0 || size > GetUseSize() {
        assert data[..] == old(data[..]);
        return 0;
      }
      ghost var all := Contents();
      var tempPos: nat := readPos;
      for i := 0 to size
        invariant buffer[..] == old(buffer[..])
        invariant tempPos < bufferSize
        invariant Held(buffer[..], tempPos, writePos) == all[i..]
        invariant forall k :: 0 <= k < i ==> data[k] == all[k]
        invariant forall k :: size <= k < data.Length ==> data[k] == old(data[k])
      {
        FetchAndAdvance(buffer[..], tempPos, writePos);
        data[i] := buffer[tempPos];
        tempPos := (tempPos + 1) % bufferSize;
      }
      return size;
    }

    method Dequeue(data: array<Byte>, size: int) returns (r: int)
      requires Valid() && size <= data.Length && data != buffer
      modifies this, data
      ensures Valid() && SameStore() && writePos == old(writePos) && buffer[..] == old(buffer[..])
      ensures r == if 0 < size <= old(|Contents()|) then size else 0
      ensures data[..r] == old(Contents())[..r] && data[r..] == old(data[r..])
      ensures Contents() == old(Contents())[r..]
      ensures taken == old(taken) + data[..r] && put == old(put)
    {
      if size <= 0 || size > GetUseSize() {
        assert data[..] == old(data[..]);
        return 0;
      }
      ghost var all := Contents();
      for i := 0 to size
        invariant SameStore() && Shape() && writePos == old(writePos) && taken == old(taken) && put == old(put)
        invariant buffer[..] == old(buffer[..])
        invariant Held(buffer[..], readPos, writePos) == all[i..]
        invariant forall k :: 0 <= k < i ==> data[k] == all[k]
        invariant forall k :: size <= k < data.Length ==> data[k] == old(data[k])
      {
        FetchAndAdvance(buffer[..], readPos, writePos);
        data[i] := buffer[readPos];
        readPos := (readPos + 1) % bufferSize;
      }
      assert data[..size] == all[..size];
      TakeFromHistory(put, taken, all, size);
      taken := taken + all[..size];
      return size;
    }

    method ClearBuffer()
      requires Valid()
      modifies this
      ensures Valid() && SameStore() && Contents() == [] && put == [] && taken == []
    {
      readPos := 0;
      writePos := 0;
      put, taken := [], [];
    }

    method MoveFront(size: int) returns (r: int)
      requires Valid()
      modifies this
      ensures Valid() && SameStore() && writePos == old(writePos)
      ensures r == if 0 < size <= old(|Contents()|) then size else 0
      ensures Contents() == old(Contents())[r..]
      ensures taken == old(taken) + old(Contents())[..r] && put == old(put)
    {
      if size <= 0 || size > GetUseSize() {
        return 0;
      }
      ghost var all := Contents();
      AdvanceRead(buffer[..], readPos, writePos, size);
      readPos := (readPos + size) % bufferSize;
      TakeFromHistory(put, taken, all, size);
      assert all[size..] == Contents();
      taken := taken + all[..size];
      return size;
    }

    method MoveRear(size: int) returns (r: int)
      requires Valid()
      modifies this
      ensures Valid() && SameStore() && readPos == old(readPos)
      ensures r == if 0 < size <= old(GetFreeSize()) then size else 0
      ensures Contents() == old(Contents()) + old(Rear(r))
      ensures put == old(put) + old(Rear(r)) && taken == old(taken)
    {
      if size <= 0 || size > GetFreeSize() {
        return 0;
      }
      ghost var published := Rear(size);
      AdvanceWrite(buffer[..], readPos, writePos, size);
      writePos := (writePos + size) % bufferSize;
      put := put + published;
      return size;
    }

    // What recv does to the cells behind GetRearBuffer(): it fills at most the
    // announced contiguous room and publishes nothing.
    method WriteRear(data: seq<Byte>)
      requires Valid() && |data| <= DirectEnqueueSize()
      modifies buffer
      ensures Valid() && Contents() == old(Contents()) && Rear(|data|) == data
    {
      for i := 0 to |data|
        invariant forall k :: 0 <= k < i ==> buffer[writePos + k] == data[k]
        invariant forall k :: 0 <= k < bufferSize && !(writePos <= k < writePos + i) ==> buffer[k] == old(buffer[k])
      {
        buffer[writePos + i] := data[i];
      }
      if bufferSize > 0 {
        FreeCellsIrrelevant(old(buffer[..]), buffer[..], readPos, writePos);
      }
      assert Rear(|data|) == data;
    }

    // The first half of Resize: a new store that starts with the bytes held,
    // copied in one run or, when they wrap, in two.
    method CopyUnwrapped(newSize: nat) returns (newBuffer: array<Byte>)
      requires Shape() && bufferSize <= newSize
      ensures fresh(newBuffer) && newBuffer.Length == newSize
      ensures newBuffer[..|Contents()|] == Contents()
    {
      newBuffer := new Byte[newSize];
      var dataToCopy := GetUseSize();
      if dataToCopy > 0 {
        WindowSlices(buffer[..], readPos, dataToCopy);
        if readPos < writePos {
          MemCopy(newBuffer, 0, buffer, readPos, dataToCopy);
          assert newBuffer[..dataToCopy] == newBuffer[0..dataToCopy];
          assert buffer[..][readPos..writePos] == buffer[readPos..writePos];
        } else {
          CopyTwoRuns(newBuffer);
          assert buffer[..][readPos..] == buffer[readPos..] && buffer[..][..writePos] == buffer[..writePos];
        }
      }
    }

    method CopyTwoRuns(newBuffer: array<Byte>)
      requires Shape() && readPos > writePos && newBuffer != buffer && bufferSize <= newBuffer.Length
      modifies newBuffer
      ensures newBuffer[..bufferSize - readPos + writePos] == buffer[readPos..] + buffer[..writePos]
    {
      var firstChunk := bufferSize - readPos;
      MemCopy(newBuffer, 0, buffer, readPos, firstChunk);
      assert newBuffer[..firstChunk] == newBuffer[0..firstChunk] == buffer[readPos..];
      MemCopy(newBuffer, firstChunk, buffer, 0, writePos);
      assert newBuffer[..firstChunk + writePos]
          == newBuffer[..firstChunk] + newBuffer[firstChunk..firstChunk + writePos];
    }

    // Unwraps the bytes held into a store half as large again. Only the first
    // two calls do anything.
    method Resize()
      requires Valid()
      modifies this
      ensures Valid() && Contents() == old(Contents()) && put == old(put) && taken == old(taken)
      ensures old(resizeCnt) >= 2 ==> SameStore() && readPos == old(readPos) && writePos == old(writePos)
      ensures old(resizeCnt) < 2 ==>
                && fresh(buffer) && bufferSize == old(bufferSize) * 3 / 2 && resizeCnt == old(resizeCnt) + 1
                && readPos == 0 && writePos == |Contents()| && InRange(writePos, bufferSize)
      ensures old(bufferSize) <= bufferSize && 4 * bufferSize <= 9 * initialSize
    {
      if resizeCnt >= 2 {
        return;
      }
      var newSize := bufferSize * 3 / 2;
      var newBuffer := CopyUnwrapped(newSize);
      var dataToCopy := GetUseSize();
      HeldFromZero(newBuffer[..], dataToCopy);
      assert newBuffer[..][..dataToCopy] == newBuffer[..dataToCopy];
      buffer := newBuffer;
      bufferSize := newSize;
      writePos := dataToCopy;
      readPos := 0;
      resizeCnt := resizeCnt + 1;
    }
  }

  // Each growth multiplies the size by at most 3/2, and there are at most two.
  predicate GrowthWithinBudget(initial: nat, size: nat, grown: nat) {
    && grown <= 2 && initial <= size
    && (grown == 0 ==> size == initial)
    && (grown == 1 ==> 2 * size <= 3 * initial)
    && (grown == 2 ==> 4 * size <= 9 * initial)
  }
}
