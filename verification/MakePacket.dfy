// The five packet builders. A caller may hand in a packet buffer of any size
// that holds the network header; the contracts say exactly when the packet
// comes out whole. The default 1400-byte buffer always suffices.
module PacketMakers {
  import opened Bytes
  import opened Ciphers
  import opened Messages
  import opened PacketBuffers

  // The direction byte and the two ints grow the store when they must.
  predicate MoveFits(size: nat, resizes: nat) {
    size >= 16 || (size >= 8 && resizes <= 2) || (size == 7 && resizes <= 1)
  }

  // The length byte may grow the store, the text may not.
  predicate ChatFits(size: nat, resizes: nat, length: nat) {
    size >= 8 + length || (size == 7 && resizes <= 2 && length <= 6)
  }

  predicate TypeFits(size: nat) {
    size >= 7
  }

  predicate Fits(size: nat, resizes: nat, m: Message) {
    match m
    case MoveStart(_, _, _) => MoveFits(size, resizes)
    case MoveStop(_, _, _) => MoveFits(size, resizes)
    case LocalChat(text) => ChatFits(size, resizes, |text|)
    case ChatEnd => TypeFits(size)
    case HeartBeat => TypeFits(size)
  }

  lemma DefaultBufferFits(m: Message, resizes: nat)
    requires m.Valid()
    ensures Fits(1400, resizes, m) && DEFAULT_SIZE == 1400
  {
  }

  // What every builder starts with: both headers, the checksum still -1.
  method StartPacket(packet: PacketBuffer, length: nat, kind: nat)
    requires packet.Valid() && HEADER_SIZE <= packet.store.Length && length < 0x1_0000 && kind < 0x1_0000
    modifies packet, packet.store
    ensures packet.Valid() && packet.SameStore() && packet.readPos == 0
    ensures packet.Content() == Header(length, 0xff) + (if TypeFits(packet.store.Length) then Word(kind) else [])
  {
    packet.Clear();
    var netHeader, conHeader := Header(length, 0xff), Word(kind);
    var a := packet.EnqueueData(netHeader, HEADER_SIZE);
    var b := packet.EnqueueData(conHeader, 2);
  }

  // What every builder ends with.
  method FinishPacket(packet: PacketBuffer, ghost m: Message, ghost whole: bool)
    requires packet.Valid() && packet.readPos == 0 && HEADER_SIZE <= packet.store.Length && m.Valid()
    requires whole ==> packet.Content() == Header(DeclaredLength(m), 0xff) + Payload(m)
    modifies packet.store
    ensures packet.Valid()
    ensures whole ==> packet.Content() == Packet(m)
  {
    ghost var c := packet.Content();
    packet.SetCheckSum();
    if whole {
      PacketIs(c, m);
      assert packet.Content() == c[4 := CheckSum(c[HEADER_SIZE..])];
    }
  }

  lemma PacketIs(c: seq<Byte>, m: Message)
    requires m.Valid() && c == Header(DeclaredLength(m), 0xff) + Payload(m)
    ensures c[HEADER_SIZE..] == Payload(m) && c[4 := CheckSum(Payload(m))] == Packet(m)
  {
  }

  method MoveFields(packet: PacketBuffer, byDir: Byte, shX: Coordinate, shY: Coordinate)
    requires packet.Valid() && packet.readPos == 0 && HEADER_SIZE <= packet.store.Length
    requires |packet.Content()| == if TypeFits(packet.store.Length) then 7 else 5
    modifies packet, packet.store
    ensures packet.Valid() && packet.readPos == 0 && (packet.store == old(packet.store) || fresh(packet.store))
    ensures HEADER_SIZE <= packet.store.Length
    ensures MoveFits(old(packet.store.Length), old(packet.resizeCnt)) ==>
              packet.Content() == old(packet.Content()) + [byDir] + Int32(shX) + Int32(shY)
    ensures !MoveFits(old(packet.store.Length), old(packet.resizeCnt)) ==> |packet.Content()| < 16
  {
    packet.PutByte(byDir);
    packet.PutInt(shX);
    packet.PutInt(shY);
  }

  method MakeMoveStart(packet: PacketBuffer, byDir: Byte, shX: Coordinate, shY: Coordinate)
    requires packet.Valid() && HEADER_SIZE <= packet.store.Length
    modifies packet, packet.store
    ensures packet.Valid() && packet.readPos == 0
    ensures packet.Content() == Packet(MoveStart(byDir, shX, shY))
       <==> MoveFits(old(packet.store.Length), old(packet.resizeCnt))
  {
    StartPacket(packet, 11, TYPE_MOVE_START);
    MoveFields(packet, byDir, shX, shY);
    FinishPacket(packet, MoveStart(byDir, shX, shY), MoveFits(old(packet.store.Length), old(packet.resizeCnt)));
  }

  method MakeMoveStop(packet: PacketBuffer, byDir: Byte, shX: Coordinate, shY: Coordinate)
    requires packet.Valid() && HEADER_SIZE <= packet.store.Length
    modifies packet, packet.store
    ensures packet.Valid() && packet.readPos == 0
    ensures packet.Content() == Packet(MoveStop(byDir, shX, shY))
       <==> MoveFits(old(packet.store.Length), old(packet.resizeCnt))
  {
    StartPacket(packet, 11, TYPE_MOVE_STOP);
    MoveFields(packet, byDir, shX, shY);
    FinishPacket(packet, MoveStop(byDir, shX, shY), MoveFits(old(packet.store.Length), old(packet.resizeCnt)));
  }

  method MakeLocalChat(packet: PacketBuffer, len: Byte, message: seq<Byte>)
    requires packet.Valid() && HEADER_SIZE <= packet.store.Length && len <= |message|
    modifies packet, packet.store
    ensures packet.Valid() && packet.readPos == 0
    ensures packet.Content() == Packet(LocalChat(message[..len]))
       <==> ChatFits(old(packet.store.Length), old(packet.resizeCnt), len)
  {
    ghost var whole := ChatFits(packet.store.Length, packet.resizeCnt, len);
    var l: nat := len;
    StartPacket(packet, l + 3, TYPE_LOCAL_CHAT);
    packet.PutByte(len);
    var r := packet.EnqueueData(message, l);
    FinishPacket(packet, LocalChat(message[..len]), whole);
  }

  method MakeChatEnd(packet: PacketBuffer)
    requires packet.Valid() && HEADER_SIZE <= packet.store.Length
    modifies packet, packet.store
    ensures packet.Valid() && packet.readPos == 0
    ensures packet.Content() == Packet(ChatEnd) <==> TypeFits(old(packet.store.Length))
  {
    StartPacket(packet, 2, TYPE_CHAT_END);
    FinishPacket(packet, ChatEnd, TypeFits(packet.store.Length));
  }

  method MakeHeartBeat(packet: PacketBuffer)
    requires packet.Valid() && HEADER_SIZE <= packet.store.Length
    modifies packet, packet.store
    ensures packet.Valid() && packet.readPos == 0
    ensures packet.Content() == Packet(HeartBeat) <==> TypeFits(old(packet.store.Length))
  {
    StartPacket(packet, 2, TYPE_HEART_BEAT);
    FinishPacket(packet, HeartBeat, TypeFits(packet.store.Length));
  }
}
