// The packet buffer the dummy client builds and reads packets in, with the
// in-place checksum and cipher loops.
module PacketBuffers {
  import opened Bytes
  import opened Ciphers
  import opened Messages
  import opened RingBuffers

  const DEFAULT_SIZE := 1400

  // One byte of the cipher.
  lemma EncodeHead(plain: seq<Byte>, cipher: seq<Byte>, fixedKey: Byte, randomKey: Byte, prevP: Byte, prevE: Byte,
                   offset: nat)
    requires plain != [] && EncodeFrom(plain, fixedKey, randomKey, prevP, prevE, offset) == cipher
    ensures var p := Xor(plain[0], Mask(prevP, randomKey, offset));
            var e := Xor(p, Mask(prevE, fixedKey, offset));
            cipher[0] == e && EncodeFrom(plain[1..], fixedKey, randomKey, p, e, offset + 1) == cipher[1..]
  {
  }

  lemma DecodeHead(cipher: seq<Byte>, plain: seq<Byte>, fixedKey: Byte, randomKey: Byte, prevP: Byte, prevE: Byte,
                   offset: nat)
    requires cipher != [] && DecodeFrom(cipher, fixedKey, randomKey, prevP, prevE, offset) == plain
    ensures var p := Xor(cipher[0], Mask(prevE, fixedKey, offset));
            plain[0] == Xor(p, Mask(prevP, randomKey, offset))
            && DecodeFrom(cipher[1..], fixedKey, randomKey, p, cipher[0], offset + 1) == plain[1..]
  {
  }

  class PacketBuffer {
    var store: array<Byte>
    var dataSize: nat
    var readPos: nat
    var writePos: nat
    var resizeCnt: nat
    var error: bool

    ghost predicate Valid()
      reads this
    {
      readPos <= writePos <= store.Length && dataSize == writePos
    }

    // Everything written since the last Clear.
    ghost function Content(): (s: seq<Byte>)
      requires Valid()
      reads this, store
    {
      store[..writePos]
    }

    // The part of it that has not been read.
    ghost function Unread(): (s: seq<Byte>)
      requires Valid()
      reads this, store
    {
      store[readPos..writePos]
    }

    twostate predicate SameStore()
      reads this
    {
      store == old(store) && resizeCnt == old(resizeCnt)
    }

    constructor (size: nat := DEFAULT_SIZE)
      ensures Valid() && fresh(store) && store.Length == size && Content() == [] && Unread() == []
      ensures resizeCnt == 0 && !error && readPos == 0
    {
      store := new Byte[size];
      dataSize, readPos, writePos, resizeCnt, error := 0, 0, 0, 0, false;
    }

    method Clear()
      requires Valid()
      modifies this
      ensures Valid() && SameStore() && Content() == [] && readPos == 0 && error == old(error)
    {
      dataSize := 0;
      readPos := 0;
      writePos := 0;
    }

    function GetDataSize(): (n: nat)
      requires Valid()
      reads this, store
      ensures n == |Unread()|
    {
      writePos - readPos
    }

    // Doubling is allowed while resizeCnt is at most 2, so three times.
    method ResizeBuffer(newSize: int) returns (ok: bool)
      requires Valid()
      modifies this
      ensures Valid() && Content() == old(Content()) && readPos == old(readPos) && error == old(error)
      ensures ok <==> newSize > 0 && newSize > old(dataSize) && old(resizeCnt) <= 2
      ensures ok ==> fresh(store) && store.Length == newSize && resizeCnt == old(resizeCnt) + 1
      ensures !ok ==> SameStore()
    {
      if newSize <= 0 || newSize <= dataSize {
        return false;
      }
      if resizeCnt > 2 {
        return false;
      }
      var newBuffer := new Byte[newSize];
      resizeCnt := resizeCnt + 1;
      MemCopy(newBuffer, 0, store, 0, dataSize);
      assert newBuffer[..dataSize] == newBuffer[0..dataSize] == store[0..dataSize] == store[..dataSize];
      store := newBuffer;
      return true;
    }

    // The block in front of every operator<<: double the store when n more
    // bytes do not fit.
    method MakeRoom(n: nat) returns (ok: bool)
      requires Valid() && n <= store.Length
      modifies this
      ensures Valid() && Content() == old(Content()) && readPos == old(readPos)
      ensures ok <==> CanGrow(old(store.Length), old(resizeCnt), old(writePos) + n)
      ensures ok ==> writePos + n <= store.Length && error == old(error)
      ensures !ok ==> SameStore() && error
      ensures store == old(store) || fresh(store)
      ensures Grown(old(store.Length), old(resizeCnt), old(writePos) + n) == (store.Length, resizeCnt)
    {
      if writePos + n > store.Length {
        ok := ResizeBuffer(store.Length * 2);
        if !ok {
          error := true;
        }
      } else {
        ok := true;
      }
    }

    method PutByte(value: Byte)
      requires Valid() && 1 <= store.Length
      modifies this, store
      ensures Valid() && readPos == old(readPos) && (store == old(store) || fresh(store))
      ensures Content() == old(Content())
                           + if CanGrow(old(store.Length), old(resizeCnt), old(writePos) + 1) then [value] else []
      ensures Grown(old(store.Length), old(resizeCnt), old(writePos) + 1) == (store.Length, resizeCnt)
    {
      var ok := MakeRoom(1);
      if ok {
        store[writePos] := value;
        writePos := writePos + 1;
        dataSize := writePos;
      }
    }

    method PutInt(value: Coordinate)
      requires Valid() && 4 <= store.Length
      modifies this, store
      ensures Valid() && readPos == old(readPos) && (store == old(store) || fresh(store))
      ensures Content() == old(Content())
                           + if CanGrow(old(store.Length), old(resizeCnt), old(writePos) + 4) then Int32(value) else []
      ensures Grown(old(store.Length), old(resizeCnt), old(writePos) + 4) == (store.Length, resizeCnt)
    {
      var ok := MakeRoom(4);
      if ok {
        var bytes := Int32(value);
        forall k | 0 <= k < 4 {
          store[writePos + k] := bytes[k];
        }
        writePos := writePos + 4;
        dataSize := writePos;
      }
    }

    // All or nothing, and never grows the store.
    method EnqueueData(src: seq<Byte>, size: int) returns (r: int)
      requires Valid() && size <= |src|
      modifies this, store
      ensures Valid() && SameStore() && readPos == old(readPos)
      ensures r == if 0 < size <= store.Length - old(writePos) then size else 0
      ensures Content() == old(Content()) + src[..r]
    {
      if size <= 0 || writePos + size > store.Length {
        return 0;
      }
      forall k | 0 <= k < size {
        store[writePos + k] := src[k];
      }
      writePos := writePos + size;
      dataSize := writePos;
      return size;
    }

    method DequeueData(size: int) returns (out: seq<Byte>)
      requires Valid()
      modifies this
      ensures Valid() && SameStore() && writePos == old(writePos)
      ensures out == if 0 < size <= old(|Unread()|) then old(Unread())[..size] else []
      ensures Unread() == old(Unread())[|out|..] && readPos == old(readPos) + |out|
    {
      if size <= 0 || readPos + size > writePos {
        return [];
      }
      out := store[readPos..readPos + size];
      readPos := readPos + size;
    }

    method MoveWritePos(size: int) returns (r: int)
      requires Valid()
      modifies this
      ensures Valid() && SameStore() && readPos == old(readPos) && store[..] == old(store[..])
      ensures r == if 0 <= size <= store.Length - old(writePos) then size else 0
      ensures writePos == old(writePos) + r
    {
      if size < 0 || writePos + size > store.Length {
        return 0;
      }
      writePos := writePos + size;
      dataSize := writePos;
      return size;
    }

    // ---- checksum and cipher, in place ---------------------------------------------

    // Byte 4 becomes the checksum of what follows the header.
    method SetCheckSum()
      requires Valid() && HEADER_SIZE <= store.Length
      modifies store
      ensures Valid()
      ensures store[..] == old(store[..])[4 := CheckSum(if GetDataSize() < HEADER_SIZE then []
                                                        else old(store[HEADER_SIZE..GetDataSize()]))]
    {
      var end := GetDataSize();
      var ptr := HEADER_SIZE;
      var checkSum: Byte := 0;
      ghost var payload := if end < HEADER_SIZE then [] else store[HEADER_SIZE..end];
      while ptr < end
        invariant HEADER_SIZE <= ptr && (ptr <= end || end < HEADER_SIZE)
        invariant end >= HEADER_SIZE ==> checkSum == CheckSum(payload[..ptr - HEADER_SIZE])
        invariant end < HEADER_SIZE ==> checkSum == 0
      {
        var sum: nat, byte: nat := checkSum, store[ptr];
        assert payload[..ptr + 1 - HEADER_SIZE][..ptr - HEADER_SIZE] == payload[..ptr - HEADER_SIZE];
        checkSum := (sum + byte) % 0x100;
        ptr := ptr + 1;
      }
      if end >= HEADER_SIZE {
        assert payload[..end - HEADER_SIZE] == payload;
      }
      store[4] := checkSum;
    }

    // GetPayLoadCheckSum: the header has been read, so the unread bytes are the
    // payload; the loop starts right after the header.
    method GetPayloadCheckSum() returns (checkSum: Byte)
      requires Valid() && readPos == HEADER_SIZE
      ensures checkSum == CheckSum(Unread())
    {
      var ptr, end := HEADER_SIZE, HEADER_SIZE + GetDataSize();
      checkSum := 0;
      while ptr < end
        invariant HEADER_SIZE <= ptr <= end
        invariant checkSum == CheckSum(Unread()[..ptr - HEADER_SIZE])
      {
        var sum: nat, byte: nat := checkSum, store[ptr];
        assert Unread()[..ptr + 1 - HEADER_SIZE][..ptr - HEADER_SIZE] == Unread()[..ptr - HEADER_SIZE];
        checkSum := (sum + byte) % 0x100;
        ptr := ptr + 1;
      }
      assert Unread()[..end - HEADER_SIZE] == Unread();
    }

    method Encode(fixedKey: Byte)
      requires Valid() && readPos == 0 && HEADER_SIZE <= writePos
      modifies store
      ensures Valid() && Content() == Wire(old(Content()), fixedKey)
      // Byte by byte.
      ensures Content()[..4] == old(Content())[..4]
      ensures exists middle :: Related(old(Content())[4..], middle, Content()[4..], fixedKey, old(store[3]))
    {
      var randomKey := store[3];
      var end := GetDataSize();
      ghost var plain := store[4..end];
      ghost var cipher := Encoded(plain, fixedKey, randomKey);
      var prevP: Byte, prevE: Byte, offset := 0, 0, 1;
      var ptr := 4;
      while ptr < end
        invariant 4 <= ptr <= end && offset == ptr - 3
        invariant store[..4] == old(store[..4])
        invariant store[ptr..end] == plain[ptr - 4..]
        invariant store[4..ptr] == cipher[..ptr - 4]
        invariant EncodeFrom(plain[ptr - 4..], fixedKey, randomKey, prevP, prevE, offset) == cipher[ptr - 4..]
      {
        assert store[ptr] == plain[ptr - 4] == plain[ptr - 4..][0];
        assert plain[ptr - 4..][1..] == plain[ptr - 3..];
        var p := Xor(store[ptr], Mask(prevP, randomKey, offset));
        var e := Xor(p, Mask(prevE, fixedKey, offset));
        EncodeHead(plain[ptr - 4..], cipher[ptr - 4..], fixedKey, randomKey, prevP, prevE, offset);
        assert cipher[ptr - 4] == e && cipher[ptr - 4..][1..] == cipher[ptr - 3..];
        store[ptr] := e;
        assert store[4..ptr + 1] == store[4..ptr] + [e];
        prevP := p;
        prevE := e;
        ptr, offset := ptr + 1, offset + 1;
      }
      assert store[4..end] == cipher;
      assert Content() == store[..4] + store[4..end];
      assert old(Content())[4..] == plain && old(Content())[..4] == old(store[..4]);
      EncodedExactly(plain, cipher, fixedKey, randomKey);
      assert Content()[4..] == cipher;
    }

    method Decode(fixedKey: Byte)
      requires Valid() && readPos == 0 && HEADER_SIZE <= writePos
      modifies store
      ensures Valid() && Content() == Unwire(old(Content()), fixedKey)
      // Byte by byte.
      ensures Content()[..4] == old(Content())[..4]
      ensures exists middle :: Related(Content()[4..], middle, old(Content())[4..], fixedKey, old(store[3]))
    {
      var randomKey := store[3];
      var end := GetDataSize();
      ghost var cipher := store[4..end];
      ghost var plain := Decoded(cipher, fixedKey, randomKey);
      var prevP: Byte, prevE: Byte, offset := 0, 0, 1;
      var ptr := 4;
      while ptr < end
        invariant 4 <= ptr <= end && offset == ptr - 3
        invariant store[..4] == old(store[..4])
        invariant store[ptr..end] == cipher[ptr - 4..]
        invariant store[4..ptr] == plain[..ptr - 4]
        invariant DecodeFrom(cipher[ptr - 4..], fixedKey, randomKey, prevP, prevE, offset) == plain[ptr - 4..]
      {
        assert store[ptr] == cipher[ptr - 4] == cipher[ptr - 4..][0];
        assert cipher[ptr - 4..][1..] == cipher[ptr - 3..];
        var c := store[ptr];
        var p := Xor(c, Mask(prevE, fixedKey, offset));
        var d := Xor(p, Mask(prevP, randomKey, offset));
        DecodeHead(cipher[ptr - 4..], plain[ptr - 4..], fixedKey, randomKey, prevP, prevE, offset);
        assert plain[ptr - 4] == d && plain[ptr - 4..][1..] == plain[ptr - 3..];
        store[ptr] := d;
        assert store[4..ptr + 1] == store[4..ptr] + [d];
        prevE := c;
        prevP := p;
        ptr, offset := ptr + 1, offset + 1;
      }
      assert store[4..end] == plain;
      assert Content() == store[..4] + store[4..end];
      assert old(Content())[4..] == cipher && old(Content())[..4] == old(store[..4]);
      EncodedExactly(plain, cipher, fixedKey, randomKey);
      assert Content()[4..] == plain;
    }
  }

  // Whether operator<< finds room for a write that ends at `need`.
  predicate CanGrow(size: nat, resizes: nat, need: nat) {
    need <= size || (size > 0 && resizes <= 2)
  }

  // The store's size and resize count after the attempt.
  function Grown(size: nat, resizes: nat, need: nat): (r: (nat, nat)) {
    if need > size > 0 && resizes <= 2 then (2 * size, resizes + 1) else (size, resizes)
  }
}
