// What the ring buffer promises across calls: any run of its operations is a
// run of a bounded FIFO queue, no byte is lost, duplicated or reordered, and
// the zero-copy interface does what the copying one does.
module RingBufferRuns {
  import opened Bytes
  import opened RingBuffers

  // ---- the abstract machine -------------------------------------------------

  // A FIFO of at most size - 1 bytes that has grown `grown` times.
  datatype Fifo = Fifo(content: seq<Byte>, size: nat, grown: nat) {
    function Free(): int {
      size - 1 - |content|
    }
  }

  // Receive and Skip are the zero-copy operations: Receive takes what arrives
  // from the socket in at most two contiguous pieces and publishes each piece;
  // Flush lets the socket take at most two contiguous pieces.
  datatype Op =
    | Put(data: seq<Byte>)
    | Take(count: nat)
    | Look(count: nat)
    | Skip(count: nat)
    | Receive(arriving: seq<Byte>)
    | Flush
    | Grow
    | Clear

  // accepted: bytes that entered; removed: bytes that left; shown: bytes the
  // caller was given.
  datatype Outcome = Outcome(queue: Fifo, accepted: seq<Byte>, removed: seq<Byte>, shown: seq<Byte>)

  function Step(q: Fifo, op: Op): Outcome {
    match op
    case Put(d) =>
      if 0 < |d| <= q.Free() then Outcome(q.(content := q.content + d), d, [], []) else Outcome(q, [], [], [])
    case Take(n) =>
      if n <= |q.content| then Outcome(q.(content := q.content[n..]), [], q.content[..n], q.content[..n])
      else Outcome(q, [], [], [])
    case Look(n) =>
      Outcome(q, [], [], if n <= |q.content| then q.content[..n] else [])
    case Skip(n) =>
      if n <= |q.content| then Outcome(q.(content := q.content[n..]), [], q.content[..n], [])
      else Outcome(q, [], [], [])
    case Receive(d) =>
      var n := if q.Free() < 0 then 0 else Min(|d|, q.Free());
      Outcome(q.(content := q.content + d[..n]), d[..n], [], [])
    case Flush =>
      Outcome(q.(content := []), [], q.content, q.content)
    case Grow =>
      Outcome(if q.grown >= 2 then q else q.(size := q.size * 3 / 2, grown := q.grown + 1), [], [], [])
    case Clear =>
      Outcome(q.(content := []), [], [], [])
  }

  function Run(q: Fifo, ops: seq<Op>): Outcome
    decreases |ops|
  {
    if ops == [] then Outcome(q, [], [], [])
    else
      var first := Step(q, ops[0]);
      var rest := Run(first.queue, ops[1..]);
      Outcome(rest.queue, first.accepted + rest.accepted, first.removed + rest.removed, first.shown + rest.shown)
  }

  // Without ClearBuffer, what left followed by what is held is what was held
  // at the start followed by what entered.
  lemma {:induction false} NothingLost(q: Fifo, ops: seq<Op>)
    requires Clear !in ops
    ensures Run(q, ops).removed + Run(q, ops).queue.content == q.content + Run(q, ops).accepted
    decreases |ops|
  {
    if ops != [] {
      var first := Step(q, ops[0]);
      var rest := Run(first.queue, ops[1..]);
      NothingLostInStep(q, ops[0]);
      NothingLost(first.queue, ops[1..]);
      Rechain(first.removed, rest.removed, rest.queue.content, first.queue.content, rest.accepted, q.content,
              first.accepted);
    }
  }

  // Regrouping of the two halves of a run.
  lemma Rechain(out1: seq<Byte>, out2: seq<Byte>, end: seq<Byte>, mid: seq<Byte>, in2: seq<Byte>, start: seq<Byte>,
                in1: seq<Byte>)
    requires out2 + end == mid + in2 && out1 + mid == start + in1
    ensures (out1 + out2) + end == start + (in1 + in2)
  {
    assert (out1 + out2) + end == out1 + (out2 + end);
    assert out1 + (mid + in2) == (out1 + mid) + in2;
    assert (start + in1) + in2 == start + (in1 + in2);
  }

  lemma NothingLostInStep(q: Fifo, op: Op)
    requires op != Clear
    ensures Step(q, op).removed + Step(q, op).queue.content == q.content + Step(q, op).accepted
  {
  }

  // A run never overfills the queue, never shrinks it, and grows it at most
  // twice, to at most 9/4 of the size it was born with.
  lemma {:induction false} CapacityKept(q: Fifo, ops: seq<Op>, initial: nat)
    requires InRange(|q.content|, q.size) && GrowthWithinBudget(initial, q.size, q.grown)
    ensures var r := Run(q, ops).queue;
            && InRange(|r.content|, r.size) && q.size <= r.size && q.grown <= r.grown
            && GrowthWithinBudget(initial, r.size, r.grown) && 4 * r.size <= 9 * initial
    decreases |ops|
  {
    if ops != [] {
      CapacityKept(Step(q, ops[0]).queue, ops[1..], initial);
    }
  }

  // ---- the code carries out the abstract machine -----------------------------

  ghost function Abstract(rb: RingBuffer): Fifo
    requires rb.Shape()
    reads rb, rb.buffer
  {
    Fifo(rb.Contents(), rb.bufferSize, rb.resizeCnt)
  }

  // The socket side of netProc_Recv: write behind the rear pointer, publish.
  method ReceivePiece(rb: RingBuffer, arriving: seq<Byte>) returns (n: nat)
    requires rb.Valid()
    modifies rb, rb.buffer
    ensures rb.Valid() && rb.SameStore() && rb.readPos == old(rb.readPos)
    ensures n == if old(rb.bufferSize) == 0 then 0 else Min(|arriving|, old(rb.DirectEnqueueSize()))
    ensures rb.Contents() == old(rb.Contents()) + arriving[..n]
    ensures rb.put == old(rb.put) + arriving[..n] && rb.taken == old(rb.taken)
    ensures n < |arriving| && rb.bufferSize > 0 ==> rb.IsFull() || (rb.writePos == 0 < rb.readPos)
  {
    var room := rb.DirectEnqueueSize();
    if room <= 0 {
      return 0;
    }
    n := Min(|arriving|, room);
    rb.WriteRear(arriving[..n]);
    var moved := rb.MoveRear(n);
    assert rb.Rear(0) == [];
  }

  lemma SplitArrival(before: seq<Byte>, arriving: seq<Byte>, m: nat, n: nat)
    requires m + n <= |arriving|
    ensures before + arriving[..m + n] == before + arriving[..m] + arriving[m..][..n]
  {
  }

  // Two pieces take everything that arrives or fill the buffer completely.
  method ReceiveTwoPieces(rb: RingBuffer, arriving: seq<Byte>) returns (n: nat)
    requires rb.Valid()
    modifies rb, rb.buffer
    ensures rb.Valid() && rb.SameStore()
    ensures n == if old(rb.GetFreeSize()) < 0 then 0 else Min(|arriving|, old(rb.GetFreeSize()))
    ensures n < |arriving| && rb.bufferSize > 0 ==> rb.IsFull()
    ensures rb.Contents() == old(rb.Contents()) + arriving[..n]
    ensures rb.put == old(rb.put) + arriving[..n] && rb.taken == old(rb.taken)
  {
    var first := ReceivePiece(rb, arriving);
    var second := ReceivePiece(rb, arriving[first..]);
    n := first + second;
    SplitArrival(old(rb.Contents()), arriving, first, second);
    SplitArrival(old(rb.put), arriving, first, second);
  }

  // The socket side of netProc_Send: hand out the front run, release it.
  method FlushPiece(rb: RingBuffer) returns (sent: seq<Byte>)
    requires rb.Valid()
    modifies rb
    ensures rb.Valid() && rb.SameStore() && rb.writePos == old(rb.writePos)
    ensures |sent| == old(rb.DirectDequeueSize())
    ensures old(rb.Contents()) == sent + rb.Contents()
    ensures rb.taken == old(rb.taken) + sent && rb.put == old(rb.put)
    ensures rb.readPos == 0 || rb.Contents() == []
  {
    var n := rb.DirectDequeueSize();
    ghost var all := rb.Contents();
    sent := rb.buffer[rb.readPos..rb.readPos + n];
    if n > 0 {
      WindowSlices(rb.buffer[..], rb.readPos, n);
      assert rb.buffer[..][rb.readPos..rb.readPos + n] == sent;
      AdvanceRead(rb.buffer[..], rb.readPos, rb.writePos, n);
    }
    var moved := rb.MoveFront(n);
    assert sent == all[..n];
  }

  // Two pieces drain the buffer completely.
  method FlushTwoPieces(rb: RingBuffer) returns (sent: seq<Byte>)
    requires rb.Valid()
    modifies rb
    ensures rb.Valid() && rb.SameStore() && rb.Contents() == [] && rb.IsEmpty()
    ensures sent == old(rb.Contents())
    ensures rb.taken == old(rb.taken) + sent && rb.put == old(rb.put)
  {
    var first := FlushPiece(rb);
    var second := FlushPiece(rb);
    sent := first + second;
  }

  // Any run of the real operations behaves as the abstract run: same bytes
  // shown, same queue left.
  method Replay(rb: RingBuffer, ops: seq<Op>) returns (shown: seq<Byte>)
    requires rb.Valid()
    modifies rb, rb.buffer
    ensures rb.Valid() && (rb.buffer == old(rb.buffer) || fresh(rb.buffer))
    ensures Abstract(rb) == Run(old(Abstract(rb)), ops).queue
    ensures shown == Run(old(Abstract(rb)), ops).shown
    decreases |ops|
  {
    if ops == [] {
      return [];
    }
    var first := Perform(rb, ops[0]);
    var rest := Replay(rb, ops[1..]);
    shown := first + rest;
  }

  method Perform(rb: RingBuffer, op: Op) returns (shown: seq<Byte>)
    requires rb.Valid()
    modifies rb, rb.buffer
    ensures rb.Valid() && (rb.buffer == old(rb.buffer) || fresh(rb.buffer))
    ensures Abstract(rb) == Step(old(Abstract(rb)), op).queue
    ensures shown == Step(old(Abstract(rb)), op).shown
  {
    shown := [];
    match op
    case Put(d) =>
      var r := rb.Enqueue(d, |d|);
    case Take(n) =>
      var out := new Byte[n];
      var r := rb.Dequeue(out, n);
      shown := out[..r];
    case Look(n) =>
      var out := new Byte[n];
      var r := rb.Peek(out, n);
      shown := out[..r];
    case Skip(n) =>
      var r := rb.MoveFront(n);
    case Receive(d) =>
      var n := ReceiveTwoPieces(rb, d);
    case Flush =>
      shown := FlushTwoPieces(rb);
    case Grow =>
      rb.Resize();
    case Clear =>
      rb.ClearBuffer();
  }

  // ---- zero-copy equals copying ------------------------------------------------

  // Two buffers in the same position, with separate stores.
  ghost predicate Twins(a: RingBuffer, b: RingBuffer)
    reads a, b, a.buffer, b.buffer
  {
    && a != b && a.buffer != b.buffer && a.Valid() && b.Valid()
    && a.bufferSize == b.bufferSize && a.readPos == b.readPos && a.writePos == b.writePos
    && a.Contents() == b.Contents()
  }

  method ZeroCopyPut(a: RingBuffer, b: RingBuffer, data: seq<Byte>)
    requires Twins(a, b) && 1 <= |data| <= a.DirectEnqueueSize()
    modifies a, a.buffer, b, b.buffer
    ensures Twins(a, b) && a.Contents() == old(a.Contents()) + data
  {
    a.WriteRear(data);
    var viaCells := a.MoveRear(|data|);
    var viaCopy := b.Enqueue(data, |data|);
    assert data[..|data|] == data;
    SameUseSameWrite(a.readPos, a.writePos, b.writePos, a.bufferSize);
  }

  method ZeroCopyTake(a: RingBuffer, b: RingBuffer, n: int) returns (x: seq<Byte>, y: seq<Byte>)
    requires Twins(a, b)
    modifies a, b
    ensures Twins(a, b) && x == y
  {
    var size := if n < 0 then 0 else n;
    var outA, outB := new Byte[size], new Byte[size];
    var peeked := a.Peek(outA, n);
    var moved := a.MoveFront(n);
    var taken := b.Dequeue(outB, n);
    x, y := outA[..peeked], outB[..taken];
    SameUseSameRead(a.readPos, b.readPos, a.writePos, a.bufferSize);
  }

  // The number of bytes held and one position fix the other position.
  lemma SameUseSameWrite(r: nat, w1: nat, w2: nat, size: nat)
    requires InRange(r, size) && InRange(w1, size) && InRange(w2, size)
    requires Used(r, w1, size) == Used(r, w2, size)
    ensures w1 == w2
  {
  }

  lemma SameUseSameRead(r1: nat, r2: nat, w: nat, size: nat)
    requires InRange(r1, size) && InRange(r2, size) && InRange(w, size)
    requires Used(r1, w, size) == Used(r2, w, size)
    ensures r1 == r2
  {
  }

  // ---- 32-bit arithmetic -----------------------------------------------------------

  // The positions are C++ ints. In a buffer born with `initial` cells and grown
  // at every chance, the code computes bufferSize * 3 twice and sums below
  // 2 * bufferSize; exactly up to this birth size they all stay in range.
  const LARGEST_SAFE_SIZE := 477218588

  lemma ArithmeticFits(initial: nat)
    ensures var once := initial * 3 / 2;
            var twice := once * 3 / 2;
            (initial * 3 < 0x8000_0000 && once * 3 < 0x8000_0000 && 2 * twice - 1 < 0x8000_0000)
            <==> initial <= LARGEST_SAFE_SIZE
  {
  }
}
