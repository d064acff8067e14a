// The dummy client's packets as values: a packed 5-byte network header (code,
// length word, random key, checksum), then the payload: a 2-byte type and the
// fields of the message.
module Messages {
  import opened Bytes
  import opened Ciphers
  import opened Wrappers

  const PROTOCOL_CODE: Byte := 0x89
  const RANDOM_KEY: Byte := 0x31
  const HEADER_SIZE := 5

  const TYPE_MOVE_START := 1
  const TYPE_MOVE_STOP := 2
  const TYPE_LOCAL_CHAT := 3
  const TYPE_HEART_BEAT := 5
  const TYPE_CHAT_END := 7

  type Coordinate = n: int | -0x8000_0000 <= n < 0x8000_0000

  datatype Message =
    | MoveStart(direction: Byte, x: Coordinate, y: Coordinate)
    | MoveStop(direction: Byte, x: Coordinate, y: Coordinate)
    | LocalChat(text: seq<Byte>)
    | ChatEnd
    | HeartBeat
  {
    // A chat text is as long as its one length byte can say.
    predicate Valid() {
      LocalChat? ==> |text| < 0x100
    }
  }

  // The length each builder writes into the header, a constant per message
  // kind but for the chat text.
  function DeclaredLength(m: Message): (n: nat)
    requires m.Valid()
    ensures n < 0x1_0000
  {
    match m
    case MoveStart(_, _, _) => 11
    case MoveStop(_, _, _) => 11
    case LocalChat(text) => |text| + 3
    case ChatEnd => 2
    case HeartBeat => 2
  }

  function Payload(m: Message): (p: seq<Byte>)
    requires m.Valid()
    ensures |p| == DeclaredLength(m)
  {
    match m
    case MoveStart(d, x, y) => Word(TYPE_MOVE_START) + [d] + Int32(x) + Int32(y)
    case MoveStop(d, x, y) => Word(TYPE_MOVE_STOP) + [d] + Int32(x) + Int32(y)
    case LocalChat(text) => Word(TYPE_LOCAL_CHAT) + [|text|] + text
    case ChatEnd => Word(TYPE_CHAT_END)
    case HeartBeat => Word(TYPE_HEART_BEAT)
  }

  function Header(length: nat, checkSum: Byte): (h: seq<Byte>)
    requires length < 0x1_0000
    ensures |h| == HEADER_SIZE
  {
    [PROTOCOL_CODE] + Word(length) + [RANDOM_KEY, checkSum]
  }

  // The finished, not yet encoded packet.
  function Packet(m: Message): (p: seq<Byte>)
    requires m.Valid()
    ensures |p| == HEADER_SIZE + DeclaredLength(m)
  {
    Header(DeclaredLength(m), CheckSum(Payload(m))) + Payload(m)
  }

  // The four bytes from place i on, as a number modulo 2^32, least significant
  // first.
  predicate Spells(p: seq<Byte>, i: nat, x: int)
    requires i + 4 <= |p|
  {
    var a: int, b: int, c: int, d: int := p[i], p[i + 1], p[i + 2], p[i + 3];
    (a + 0x100 * b + 0x1_0000 * c + 0x100_0000 * d - x) % 0x1_0000_0000 == 0
  }

  // Every packet, byte by byte.
  lemma PacketBytes(m: Message)
    requires m.Valid()
    ensures var p := Packet(m);
            && |p| >= 7 && p[0] == 0x89 && p[3] == 0x31 && p[4] == Total(p[5..]) % 0x100 && p[6] == 0
            && (var low: int, high: int := p[1], p[2]; low + 0x100 * high == |p| - 5)
            && match m
               case MoveStart(d, x, y) => |p| == 16 && p[5] == 1 && p[7] == d && Spells(p, 8, x) && Spells(p, 12, y)
               case MoveStop(d, x, y) => |p| == 16 && p[5] == 2 && p[7] == d && Spells(p, 8, x) && Spells(p, 12, y)
               case LocalChat(text) => |p| >= 8 && p[5] == 3 && p[7] == |text| && p[8..] == text
               case ChatEnd => |p| == 7 && p[5] == 7
               case HeartBeat => |p| == 7 && p[5] == 5
  {
    var p := Packet(m);
    assert p[5..] == Payload(m);
    CheckSumIsTotal(Payload(m));
    if m.LocalChat? {
      assert p[8..] == Payload(m)[3..] == m.text;
    }
  }

  // One of them.
  lemma OnePacket()
    ensures Packet(HeartBeat) == [0x89, 0x02, 0x00, 0x31, 0x05, 0x05, 0x00]
  {
    assert Payload(HeartBeat) == [5, 0];
    CheckSumIsTotal([5, 0]);
  }

  // What goes over the socket: Encode runs from the checksum byte to the end,
  // under the random key found in the packet.
  function Wire(packet: seq<Byte>, fixedKey: Byte): (w: seq<Byte>)
    requires |packet| >= HEADER_SIZE
    ensures |w| == |packet|
  {
    packet[..4] + Encoded(packet[4..], fixedKey, packet[3])
  }

  // The same as it is sent under the client's key.
  lemma OnePacketSent()
    ensures Wire(Packet(HeartBeat), DUMMY_FIXED_CODE) == [0x89, 0x02, 0x00, 0x31, 0x9d, 0x27, 0x70]
  {
    OnePacket();
    OnePlainText(Packet(HeartBeat)[4..], [0x37, 0x6f, 0xa3], [0x9d, 0x27, 0x70], DUMMY_FIXED_CODE, 0x31);
  }

  lemma OnePlainText(plain: seq<Byte>, middle: seq<Byte>, cipher: seq<Byte>, fixedKey: Byte, randomKey: Byte)
    requires |plain| == |middle| == |cipher| == 3 && fixedKey == 0xa9 && randomKey == 0x31
    requires plain[0] == 0x05 && plain[1] == 0x05 && plain[2] == 0x00
    requires middle[0] == 0x37 && middle[1] == 0x6f && middle[2] == 0xa3
    requires cipher[0] == 0x9d && cipher[1] == 0x27 && cipher[2] == 0x70
    ensures Encoded(plain, fixedKey, randomKey) == cipher
  {
    FirstByte(plain[0], middle[0]);
    SecondByte(plain[1], middle[1]);
    ThirdByte(plain[2], middle[2]);
    Placed(plain, middle, cipher, fixedKey, randomKey, 0, 0x32, 0xaa);
    PlacedNext(plain, middle, cipher, fixedKey, randomKey, 1, 0x6a, 0x48);
    PlacedNext(plain, middle, cipher, fixedKey, randomKey, 2, 0xa3, 0xd3);
    AllPlaced(plain, middle, cipher, fixedKey, randomKey);
  }

  lemma PlacedNext(plain: seq<Byte>, middle: seq<Byte>, cipher: seq<Byte>, fixedKey: Byte, randomKey: Byte, i: nat,
                   m: Byte, e: Byte)
    requires |plain| == |middle| == |cipher| && 0 < i < |plain|
    requires middle[i - 1] as int + randomKey as int + i + 1 == m as int
    requires cipher[i - 1] as int + fixedKey as int + i + 1 in {e as int, e as int + 0x100}
    requires Xor(plain[i], m) == middle[i] && Xor(middle[i], e) == cipher[i]
    ensures RelatedAt(plain, middle, cipher, fixedKey, randomKey, i)
  {
    Placed(plain, middle, cipher, fixedKey, randomKey, i, m, e);
  }

  lemma Placed(plain: seq<Byte>, middle: seq<Byte>, cipher: seq<Byte>, fixedKey: Byte, randomKey: Byte, i: nat,
               m: Byte, e: Byte)
    requires |plain| == |middle| == |cipher| && i < |plain|
    requires (Previous(middle, 0, i) as int + randomKey as int + i + 1) % 0x100 == m as int
    requires (Previous(cipher, 0, i) as int + fixedKey as int + i + 1) % 0x100 == e as int
    requires Xor(plain[i], m) == middle[i] && Xor(middle[i], e) == cipher[i]
    ensures RelatedAt(plain, middle, cipher, fixedKey, randomKey, i)
  {
  }

  lemma AllPlaced(plain: seq<Byte>, middle: seq<Byte>, cipher: seq<Byte>, fixedKey: Byte, randomKey: Byte)
    requires |plain| == |middle| == |cipher| == 3
    requires RelatedAt(plain, middle, cipher, fixedKey, randomKey, 0)
    requires RelatedAt(plain, middle, cipher, fixedKey, randomKey, 1)
    requires RelatedAt(plain, middle, cipher, fixedKey, randomKey, 2)
    ensures Encoded(plain, fixedKey, randomKey) == cipher
  {
    assert Related(plain, middle, cipher, fixedKey, randomKey);
    EncodedExactly(plain, cipher, fixedKey, randomKey);
  }

  lemma FirstByte(x: Byte, m: Byte)
    requires x == 0x05 && m == 0x37
    ensures Xor(x, 0x32) == m && Xor(m, 0xaa) == 0x9d
  {
    XorIs(x, 0x32);
    XorIs(m, 0xaa);
  }

  lemma SecondByte(x: Byte, m: Byte)
    requires x == 0x05 && m == 0x6f
    ensures Xor(x, 0x6a) == m && Xor(m, 0x48) == 0x27
  {
    XorIs(x, 0x6a);
    XorIs(m, 0x48);
  }

  lemma ThirdByte(x: Byte, m: Byte)
    requires x == 0x00 && m == 0xa3
    ensures Xor(x, 0xa3) == m && Xor(m, 0xd3) == 0x70
  {
    XorIs(x, 0xa3);
    XorIs(m, 0xd3);
  }

  function Unwire(wire: seq<Byte>, fixedKey: Byte): (p: seq<Byte>)
    requires |wire| >= HEADER_SIZE
    ensures |p| == |wire|
  {
    wire[..4] + Decoded(wire[4..], fixedKey, wire[3])
  }

  lemma UnwireWire(packet: seq<Byte>, fixedKey: Byte)
    requires |packet| >= HEADER_SIZE
    ensures Unwire(Wire(packet, fixedKey), fixedKey) == packet
  {
    var w := Wire(packet, fixedKey);
    assert w[..4] == packet[..4] && w[4..] == Encoded(packet[4..], fixedKey, packet[3]) && w[3] == packet[3];
    DecodeEncode(packet[4..], fixedKey, packet[3], 0, 0, 1);
    assert packet == packet[..4] + packet[4..];
  }

  // ---- reading a payload back -------------------------------------------------------

  function ParsePayload(p: seq<Byte>): (m: Option<Message>)
    ensures m.Some? ==> m.value.Valid() && Payload(m.value) == p
  {
    if |p| < 2 then None
    else if WordAt(p, 0) == TYPE_MOVE_START && |p| == 11 then
      MovePayload(p, TYPE_MOVE_START); Some(MoveStart(p[2], Int32At(p, 3), Int32At(p, 7)))
    else if WordAt(p, 0) == TYPE_MOVE_STOP && |p| == 11 then
      MovePayload(p, TYPE_MOVE_STOP); Some(MoveStop(p[2], Int32At(p, 3), Int32At(p, 7)))
    else if WordAt(p, 0) == TYPE_LOCAL_CHAT && |p| >= 3 && p[2] == |p| - 3 then
      WordBack(p, 0, TYPE_LOCAL_CHAT); assert p == p[0..2] + [p[2]] + p[3..]; Some(LocalChat(p[3..]))
    else if WordAt(p, 0) == TYPE_CHAT_END && |p| == 2 then
      WordBack(p, 0, TYPE_CHAT_END); assert p == p[0..2]; Some(ChatEnd)
    else if WordAt(p, 0) == TYPE_HEART_BEAT && |p| == 2 then
      WordBack(p, 0, TYPE_HEART_BEAT); assert p == p[0..2]; Some(HeartBeat)
    else None
  }

  lemma WordBack(p: seq<Byte>, i: nat, n: nat)
    requires i + 2 <= |p| && n < 0x1_0000 && WordAt(p, i) == n
    ensures p[i..i + 2] == Word(n)
  {
    assert p[i..i + 2] == [p[i], p[i + 1]];
  }

  lemma Int32Back(p: seq<Byte>, i: nat)
    requires i + 4 <= |p|
    ensures p[i..i + 4] == Int32(Int32At(p, i))
  {
    var low, high := WordAt(p, i), WordAt(p, i + 2);
    HalvesApart(low, high);
    assert Int32(Int32At(p, i)) == Word(low) + Word(high);
    WordBack(p, i, low);
    WordBack(p, i + 2, high);
    assert p[i..i + 4] == p[i..i + 2] + p[i + 2..i + 4];
  }

  lemma HalvesApart(low: nat, high: nat)
    requires low < 0x1_0000 && high < 0x1_0000
    ensures (low + 0x1_0000 * high) % 0x1_0000 == low && (low + 0x1_0000 * high) / 0x1_0000 == high
  {
  }

  lemma MovePayload(p: seq<Byte>, kind: nat)
    requires |p| == 11 && kind < 0x1_0000 && WordAt(p, 0) == kind
    ensures p == Word(kind) + [p[2]] + Int32(Int32At(p, 3)) + Int32(Int32At(p, 7))
  {
    WordBack(p, 0, kind);
    Int32Back(p, 3);
    Int32Back(p, 7);
    assert p == p[0..2] + [p[2]] + p[3..7] + p[7..11];
  }

  // The reader accepts exactly the payloads the builders make, and gives the
  // message back.
  lemma ParsePayloadInverts(m: Message)
    requires m.Valid()
    ensures ParsePayload(Payload(m)) == Some(m)
  {
  }

}
