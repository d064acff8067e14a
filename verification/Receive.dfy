// The dummy client's socket handlers over the ring buffers: what recv brings
// is parsed exactly as the function Parse says, however much of it arrives at
// a time, and what SendPacket_Unicast queues is the encoded packet.
module SocketHandlers {
  import opened Bytes
  import opened Messages
  import opened Framing
  import opened RingBuffers
  import opened PacketBuffers

  // netProc_Recv after a successful recv of `arriving`. `dispatch` stands for
  // RecvProcess: it sees the payload and says whether to go on.
  method NetProcRecv(recvQ: RingBuffer, arriving: seq<Byte>, fixedKey: Byte, dispatch: seq<Byte> -> bool)
    returns (ok: bool, delivered: seq<seq<Byte>>)
    requires recvQ.Valid() && recvQ.bufferSize <= DEFAULT_SIZE + 1
    requires 0 < |arriving| <= recvQ.DirectEnqueueSize()
    modifies recvQ, recvQ.buffer
    ensures recvQ.Valid() && recvQ.SameStore()
    ensures var r := Parse(old(recvQ.Contents()) + arriving, fixedKey, dispatch);
            delivered == r.payloads && recvQ.Contents() == r.rest && (ok <==> r.status == Waiting)
    // The next recv asks for at least one byte unless the packet under way is
    // longer than the buffer.
    ensures ok && PendingLength(recvQ.Contents()) < recvQ.bufferSize ==> recvQ.DirectEnqueueSize() > 0
  {
    recvQ.WriteRear(arriving);
    var moved := recvQ.MoveRear(|arriving|);
    ok, delivered := DrainPackets(recvQ, fixedKey, dispatch);
    if ok {
      RoomForPending(recvQ);
    }
  }

  // The loop of netProc_Recv: deliver packets while complete ones are queued.
  method DrainPackets(recvQ: RingBuffer, fixedKey: Byte, dispatch: seq<Byte> -> bool)
    returns (ok: bool, delivered: seq<seq<Byte>>)
    requires recvQ.Valid() && recvQ.bufferSize <= DEFAULT_SIZE + 1
    modifies recvQ
    ensures recvQ.Valid() && recvQ.SameStore()
    ensures var r := Parse(old(recvQ.Contents()), fixedKey, dispatch);
            delivered == r.payloads && recvQ.Contents() == r.rest && (ok <==> r.status == Waiting)
    ensures ok ==> |recvQ.Contents()| < PendingLength(recvQ.Contents())
  {
    ghost var all := Parse(recvQ.Contents(), fixedKey, dispatch);
    delivered := [];
    while true
      invariant recvQ.Valid() && recvQ.SameStore()
      invariant all == Parse(recvQ.Contents(), fixedKey, dispatch).Prepend(delivered)
      decreases |recvQ.Contents()|
    {
      ghost var s := recvQ.Contents();
      ParseTurn(s, fixedKey, dispatch, delivered);
      var found := NextPacket(recvQ, fixedKey);
      match found
      case Need =>
        return true, delivered;
      case WrongCode =>
        return false, delivered;
      case WrongSum =>
        return false, delivered;
      case Got(payload) =>
        delivered := delivered + [payload];
        if !dispatch(payload) {
          return false, delivered;
        }
    }
  }

  // What one turn of the loop finds at the front of the queue.
  datatype Found = Need | WrongCode | WrongSum | Got(payload: seq<Byte>)

  function Front(s: seq<Byte>, fixedKey: Byte): Found {
    if |s| < HEADER_SIZE then Need
    else if s[0] != PROTOCOL_CODE then WrongCode
    else if !Complete(s) then Need
    else if !FirstIntact(s, fixedKey) then WrongSum
    else Got(FirstPayload(s, fixedKey))
  }

  // One turn of the loop is one unfolding of Parse.
  lemma ParseTurn(s: seq<Byte>, fixedKey: Byte, dispatch: seq<Byte> -> bool, earlier: seq<seq<Byte>>)
    ensures var r := Parse(s, fixedKey, dispatch).Prepend(earlier);
            match Front(s, fixedKey)
            case Need => r == Received(earlier, s, Waiting) && |s| < PendingLength(s)
            case WrongCode => r == Received(earlier, s, BadCode)
            case WrongSum => r == Received(earlier, s[FrameLength(s)..], BadCheckSum)
            case Got(p) =>
              if dispatch(p) then r == Parse(s[FrameLength(s)..], fixedKey, dispatch).Prepend(earlier + [p])
              else r == Received(earlier + [p], s[FrameLength(s)..], Refused)
  {
  }

  method NextPacket(recvQ: RingBuffer, fixedKey: Byte) returns (found: Found)
    requires recvQ.Valid() && recvQ.bufferSize <= DEFAULT_SIZE + 1
    modifies recvQ
    ensures recvQ.Valid() && recvQ.SameStore() && recvQ.buffer[..] == old(recvQ.buffer[..])
    ensures found == Front(old(recvQ.Contents()), fixedKey)
    ensures recvQ.Contents() == if found.Need? || found.WrongCode? then old(recvQ.Contents())
                                else old(recvQ.Contents())[FrameLength(old(recvQ.Contents()))..]
  {
    if recvQ.GetUseSize() < HEADER_SIZE {
      return Need;
    }
    var netHeader := new Byte[HEADER_SIZE];
    var peeked := recvQ.Peek(netHeader, HEADER_SIZE);
    ghost var s := recvQ.Contents();
    assert netHeader[..HEADER_SIZE] == s[..HEADER_SIZE];
    assert forall k :: 0 <= k < HEADER_SIZE ==> netHeader[k] == netHeader[..HEADER_SIZE][k] == s[k];
    if netHeader[0] != PROTOCOL_CODE {
      return WrongCode;
    }
    var length := WordAt(netHeader[..], 1);
    if recvQ.GetUseSize() < HEADER_SIZE + length {
      return Need;
    }
    var intact, payload := TakePacket(recvQ, HEADER_SIZE + length, fixedKey);
    return if intact then Got(payload) else WrongSum;
  }

  // How long the packet at the front will be; just a header if that is not
  // known yet.
  function PendingLength(s: seq<Byte>): nat {
    if |s| < HEADER_SIZE then HEADER_SIZE else HEADER_SIZE + WordAt(s, 1)
  }

  lemma RoomForPending(recvQ: RingBuffer)
    requires recvQ.Valid() && |recvQ.Contents()| < PendingLength(recvQ.Contents())
    ensures PendingLength(recvQ.Contents()) < recvQ.bufferSize ==> recvQ.DirectEnqueueSize() > 0
  {
  }

  // The middle of the loop: move one packet into a packet buffer, decode it
  // and compare checksums.
  method TakePacket(recvQ: RingBuffer, n: nat, fixedKey: Byte) returns (intact: bool, payload: seq<Byte>)
    requires recvQ.Valid() && Complete(recvQ.Contents()) && n == FrameLength(recvQ.Contents()) <= DEFAULT_SIZE
    modifies recvQ
    ensures recvQ.Valid() && recvQ.SameStore() && recvQ.buffer[..] == old(recvQ.buffer[..])
    ensures recvQ.Contents() == old(recvQ.Contents())[n..]
    ensures intact <==> FirstIntact(old(recvQ.Contents()), fixedKey)
    ensures payload == FirstPayload(old(recvQ.Contents()), fixedKey)
  {
    ghost var s := recvQ.Contents();
    var packet := new PacketBuffer();
    var taken := recvQ.Dequeue(packet.store, n);
    var moved := packet.MoveWritePos(n);
    assert packet.Content() == s[..n];
    packet.Decode(fixedKey);
    ghost var plain := packet.Content();
    assert packet.Unread() == plain;
    var netHeader := packet.DequeueData(HEADER_SIZE);
    assert packet.Unread() == plain[HEADER_SIZE..];
    var sum := packet.GetPayloadCheckSum();
    intact := netHeader[4] == sum;
    payload := packet.store[packet.readPos..packet.writePos];
  }

  // SendPacket_Unicast: the send queue takes the whole encoded packet or, when
  // there is no room, nothing.
  method SendPacketUnicast(sendQ: RingBuffer, packet: PacketBuffer, fixedKey: Byte)
    requires sendQ.Valid() && packet.Valid() && packet.readPos == 0 && HEADER_SIZE <= packet.writePos
    requires sendQ.buffer != packet.store
    modifies sendQ, sendQ.buffer, packet.store
    ensures sendQ.Valid() && sendQ.SameStore() && packet.Valid()
    ensures sendQ.Contents() == old(sendQ.Contents())
              + (if |old(packet.Content())| <= old(sendQ.GetFreeSize())
                  then Wire(old(packet.Content()), fixedKey) else [])
  {
    packet.Encode(fixedKey);
    var bytes := packet.store[..packet.GetDataSize()];
    assert bytes == packet.Content();
    var r := sendQ.Enqueue(bytes, |bytes|);
  }
}
