// The two-key byte cipher that client and server run over the checksum byte
// and the payload of every packet, and the checksum itself. The client's
// Encode/Decode and the server's _ClientEncodePacket/_ClientDecodePacket are
// the same computation with different fixed keys.
module Ciphers {
  import opened Bytes

  // The key byte for one position: BYTE arithmetic, so modulo 256.
  function Mask(previous: Byte, key: Byte, offset: nat): (m: Byte) {
    var p: nat, k: nat := previous, key;
    (p + k + offset) % 0x100
  }

  function EncodeFrom(s: seq<Byte>, fixedKey: Byte, randomKey: Byte, prevP: Byte, prevE: Byte, offset: nat)
    : (c: seq<Byte>)
    ensures |c| == |s|
  {
    if s == [] then []
    else
      var p := Xor(s[0], Mask(prevP, randomKey, offset));
      var e := Xor(p, Mask(prevE, fixedKey, offset));
      [e] + EncodeFrom(s[1..], fixedKey, randomKey, p, e, offset + 1)
  }

  function DecodeFrom(c: seq<Byte>, fixedKey: Byte, randomKey: Byte, prevP: Byte, prevE: Byte, offset: nat)
    : (s: seq<Byte>)
    ensures |s| == |c|
  {
    if c == [] then []
    else
      var p := Xor(c[0], Mask(prevE, fixedKey, offset));
      var d := Xor(p, Mask(prevP, randomKey, offset));
      [d] + DecodeFrom(c[1..], fixedKey, randomKey, p, c[0], offset + 1)
  }

  // Both directions start from zero registers and offset 1.
  function Encoded(s: seq<Byte>, fixedKey: Byte, randomKey: Byte): (c: seq<Byte>)
    ensures |c| == |s|
  {
    EncodeFrom(s, fixedKey, randomKey, 0, 0, 1)
  }

  function Decoded(c: seq<Byte>, fixedKey: Byte, randomKey: Byte): (s: seq<Byte>)
    ensures |s| == |c|
  {
    DecodeFrom(c, fixedKey, randomKey, 0, 0, 1)
  }

  // Decoding undoes encoding from any register state.
  lemma {:induction false} DecodeEncode(s: seq<Byte>, fixedKey: Byte, randomKey: Byte, prevP: Byte, prevE: Byte,
                                        offset: nat)
    ensures DecodeFrom(EncodeFrom(s, fixedKey, randomKey, prevP, prevE, offset),
                       fixedKey, randomKey, prevP, prevE, offset) == s
  {
    if s != [] {
      var p := Xor(s[0], Mask(prevP, randomKey, offset));
      var e := Xor(p, Mask(prevE, fixedKey, offset));
      XorCancel(p, Mask(prevE, fixedKey, offset));
      XorCancel(s[0], Mask(prevP, randomKey, offset));
      DecodeEncode(s[1..], fixedKey, randomKey, p, e, offset + 1);
      var c := EncodeFrom(s, fixedKey, randomKey, prevP, prevE, offset);
      assert c[0] == e && c[1..] == EncodeFrom(s[1..], fixedKey, randomKey, p, e, offset + 1);
      assert s == [s[0]] + s[1..];
    }
  }

  // Encoding undoes decoding: no two plain texts share a cipher text and every
  // byte string is a cipher text.
  lemma {:induction false} EncodeDecode(c: seq<Byte>, fixedKey: Byte, randomKey: Byte, prevP: Byte, prevE: Byte,
                                        offset: nat)
    ensures EncodeFrom(DecodeFrom(c, fixedKey, randomKey, prevP, prevE, offset),
                       fixedKey, randomKey, prevP, prevE, offset) == c
  {
    if c != [] {
      var p := Xor(c[0], Mask(prevE, fixedKey, offset));
      var d := Xor(p, Mask(prevP, randomKey, offset));
      XorCancel(p, Mask(prevP, randomKey, offset));
      XorCancel(c[0], Mask(prevE, fixedKey, offset));
      EncodeDecode(c[1..], fixedKey, randomKey, p, c[0], offset + 1);
      var s := DecodeFrom(c, fixedKey, randomKey, prevP, prevE, offset);
      assert s[0] == d && s[1..] == DecodeFrom(c[1..], fixedKey, randomKey, p, c[0], offset + 1);
      assert c == [c[0]] + c[1..];
    }
  }

  // ---- what comes out, byte by byte ----------------------------------------------------

  // The relation of a plain and a cipher text: every plain byte is turned into
  // a middle byte by the one before, the random key and its place, and that
  // into a cipher byte by the cipher byte before, the fixed key and its place;
  // sums are taken modulo 256, places counted from 1.
  predicate Related(plain: seq<Byte>, middle: seq<Byte>, cipher: seq<Byte>, fixedKey: Byte, randomKey: Byte) {
    && |plain| == |middle| == |cipher|
    && forall i :: 0 <= i < |plain| ==> RelatedAt(plain, middle, cipher, fixedKey, randomKey, i)
  }

  predicate RelatedAt(plain: seq<Byte>, middle: seq<Byte>, cipher: seq<Byte>, fixedKey: Byte, randomKey: Byte, i: nat)
    requires |plain| == |middle| == |cipher| && i < |plain|
  {
    var m: int, e: int, r: int, f: int := Previous(middle, 0, i), Previous(cipher, 0, i), randomKey, fixedKey;
    && middle[i] == Xor(plain[i], (m + r + i + 1) % 0x100)
    && cipher[i] == Xor(middle[i], (e + f + i + 1) % 0x100)
  }

  // The byte before, when this one comes before the first.
  function Previous(s: seq<Byte>, first: Byte, i: nat): Byte
    requires i <= |s|
  {
    if i == 0 then first else s[i - 1]
  }

  // The cipher text of a plain text is the one that is so related to it, and
  // the plain text of a cipher text likewise.
  lemma EncodedExactly(s: seq<Byte>, c: seq<Byte>, fixedKey: Byte, randomKey: Byte)
    ensures c == Encoded(s, fixedKey, randomKey) <==> exists middle :: Related(s, middle, c, fixedKey, randomKey)
    ensures s == Decoded(c, fixedKey, randomKey) <==> exists middle :: Related(s, middle, c, fixedKey, randomKey)
  {
    var middle := Middle(s, randomKey, 0, 1);
    if c == Encoded(s, fixedKey, randomKey) {
      forall i | 0 <= i < |s|
        ensures RelatedAt(s, middle, c, fixedKey, randomKey, i)
      {
        EncodedAt(s, fixedKey, randomKey, 0, 0, 1, i);
      }
      assert Related(s, middle, c, fixedKey, randomKey);
    }
    forall other | Related(s, other, c, fixedKey, randomKey)
      ensures c == Encoded(s, fixedKey, randomKey)
    {
      RelatedIsEncoded(s, other, c, fixedKey, randomKey);
    }
    DecodeEncode(s, fixedKey, randomKey, 0, 0, 1);
    EncodeDecode(c, fixedKey, randomKey, 0, 0, 1);
  }

  function Middle(s: seq<Byte>, randomKey: Byte, prevP: Byte, offset: nat): (m: seq<Byte>)
    ensures |m| == |s|
  {
    if s == [] then []
    else
      var p := Xor(s[0], Mask(prevP, randomKey, offset));
      [p] + Middle(s[1..], randomKey, p, offset + 1)
  }

  lemma {:induction false} EncodedAt(s: seq<Byte>, fixedKey: Byte, randomKey: Byte, prevP: Byte, prevE: Byte,
                                     offset: nat, i: nat)
    requires i < |s|
    ensures var m, c := Middle(s, randomKey, prevP, offset), EncodeFrom(s, fixedKey, randomKey, prevP, prevE, offset);
            && m[i] == Xor(s[i], Mask(Previous(m, prevP, i), randomKey, offset + i))
            && c[i] == Xor(m[i], Mask(Previous(c, prevE, i), fixedKey, offset + i))
    decreases i
  {
    if i > 0 {
      var p := Xor(s[0], Mask(prevP, randomKey, offset));
      var e := Xor(p, Mask(prevE, fixedKey, offset));
      EncodedAt(s[1..], fixedKey, randomKey, p, e, offset + 1, i - 1);
    }
  }

  // Only one text is so related.
  lemma RelatedIsEncoded(s: seq<Byte>, middle: seq<Byte>, c: seq<Byte>, fixedKey: Byte, randomKey: Byte)
    requires Related(s, middle, c, fixedKey, randomKey)
    ensures c == Encoded(s, fixedKey, randomKey)
  {
    SameUpTo(s, middle, c, fixedKey, randomKey, |s|);
    assert c[..|s|] == c;
  }

  lemma {:induction false} SameUpTo(s: seq<Byte>, middle: seq<Byte>, c: seq<Byte>, fixedKey: Byte, randomKey: Byte,
                                    n: nat)
    requires Related(s, middle, c, fixedKey, randomKey) && n <= |s|
    ensures middle[..n] == Middle(s, randomKey, 0, 1)[..n]
    ensures c[..n] == Encoded(s, fixedKey, randomKey)[..n]
    decreases n
  {
    if n > 0 {
      var m, e := Middle(s, randomKey, 0, 1), Encoded(s, fixedKey, randomKey);
      SameUpTo(s, middle, c, fixedKey, randomKey, n - 1);
      EncodedAt(s, fixedKey, randomKey, 0, 0, 1, n - 1);
      assert RelatedAt(s, middle, c, fixedKey, randomKey, n - 1);
      assert n > 1 ==> middle[n - 2] == middle[..n - 1][n - 2] && c[n - 2] == c[..n - 1][n - 2];
      assert middle[..n] == middle[..n - 1] + [middle[n - 1]] && m[..n] == m[..n - 1] + [m[n - 1]];
      assert c[..n] == c[..n - 1] + [c[n - 1]] && e[..n] == e[..n - 1] + [e[n - 1]];
    }
  }

  // Sender and receiver read the random key from the packet, so they agree on
  // it. They understand each other exactly when their fixed keys agree too.
  lemma FixedKeysMustAgree(s: seq<Byte>, senderKey: Byte, receiverKey: Byte, randomKey: Byte)
    requires s != []
    ensures Decoded(Encoded(s, senderKey, randomKey), receiverKey, randomKey) == s <==> senderKey == receiverKey
  {
    if senderKey == receiverKey {
      DecodeEncode(s, senderKey, randomKey, 0, 0, 1);
    } else {
      WrongKeyWrongByte(s[0], Mask(0, randomKey, 1), Mask(0, senderKey, 1), Mask(0, receiverKey, 1));
    }
  }

  // One byte through the sender's two key bytes and back through different ones.
  lemma WrongKeyWrongByte(x: Byte, random: Byte, sent: Byte, expected: Byte)
    requires sent != expected
    ensures Xor(Xor(Xor(Xor(x, random), sent), expected), random) != x
  {
    var p := Xor(x, random);
    var q := Xor(Xor(p, sent), expected);
    if Xor(q, random) == x {
      XorCancel(q, random);
      assert q == p;
      XorCancel(Xor(p, sent), expected);
      XorRecoversKey(p, sent, expected);
    }
  }

  // The keys in the two programs: the dummy client's Fixed_Code and the server
  // library's STICKYKEY. Built from these files they do not interoperate.
  const DUMMY_FIXED_CODE: Byte := 0xa9
  const SERVER_STICKY_KEY: Byte := 50

  lemma ShippedKeysDiffer(s: seq<Byte>, randomKey: Byte)
    requires s != []
    ensures DUMMY_FIXED_CODE == 169 && SERVER_STICKY_KEY == 50
    ensures Decoded(Encoded(s, DUMMY_FIXED_CODE, randomKey), SERVER_STICKY_KEY, randomKey) != s
  {
    FixedKeysMustAgree(s, DUMMY_FIXED_CODE, SERVER_STICKY_KEY, randomKey);
  }

  // ---- checksum ------------------------------------------------------------------

  // The sum of the bytes in BYTE arithmetic.
  function CheckSum(s: seq<Byte>): (sum: Byte) {
    if s == [] then 0
    else
      var init: nat, last: nat := CheckSum(s[..|s| - 1]), s[|s| - 1];
      (init + last) % 0x100
  }

  function Total(s: seq<Byte>): nat {
    if s == [] then 0
    else
      var first: nat := s[0];
      first + Total(s[1..])
  }

  // It is the sum of all bytes, modulo 256.
  lemma {:induction false} CheckSumIsTotal(s: seq<Byte>)
    ensures CheckSum(s) == Total(s) % 0x100
  {
    if s != [] {
      CheckSumIsTotal(s[..|s| - 1]);
      TotalOfLast(s);
    }
  }

  lemma {:induction false} TotalOfLast(s: seq<Byte>)
    requires s != []
    ensures Total(s) == Total(s[..|s| - 1]) + s[|s| - 1]
  {
    if |s| > 1 {
      TotalOfLast(s[1..]);
      assert s[..|s| - 1][1..] == s[1..][..|s| - 2];
    }
  }

  // Changing exactly one byte of a payload always changes its checksum.
  lemma {:induction false} CheckSumSeesOneChange(s: seq<Byte>, i: nat, x: Byte)
    requires i < |s| && x != s[i]
    ensures CheckSum(s[i := x]) != CheckSum(s)
  {
    var t := s[i := x];
    var n := |s| - 1;
    if i == n {
      assert t[..n] == s[..n];
      BytesApart(CheckSum(s[..n]), s[n], x);
    } else {
      assert t[..n] == s[..n][i := x] && t[n] == s[n];
      CheckSumSeesOneChange(s[..n], i, x);
      BytesApart(s[n], CheckSum(s[..n]), CheckSum(t[..n]));
    }
  }

  lemma BytesApart(base: nat, a: nat, b: nat)
    requires base < 0x100 && a < 0x100 && b < 0x100 && a != b
    ensures (base + a) % 0x100 != (base + b) % 0x100
  {
  }
}
