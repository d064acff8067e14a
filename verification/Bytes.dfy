// Raw bytes as the socket code sees them, and their little-endian groups.
module Bytes {
  type Byte = n: int | 0 <= n < 0x100

  function Pow2(k: nat): (p: nat)
    ensures p > 0
  {
    if k == 0 then 1 else 2 * Pow2(k - 1)
  }

  // ---- exclusive or --------------------------------------------------------------------

  // The binary digit of weight w.
  function Digit(n: nat, w: nat): (d: nat)
    requires w > 0
    ensures d < 2
  {
    n / w % 2
  }

  // The weights of a byte's digits.
  predicate IsWeight(w: nat) {
    w == 1 || w == 2 || w == 4 || w == 8 || w == 16 || w == 32 || w == 64 || w == 128
  }

  function Differing(a: nat, b: nat, w: nat): nat
    requires w > 0
  {
    if Digit(a, w) != Digit(b, w) then w else 0
  }

  // The sum over the weights from w down.
  function XorFrom(a: nat, b: nat, w: nat): (r: nat)
    ensures r < 2 * w || r == w == 0
  {
    if w == 0 then 0 else Differing(a, b, w) + XorFrom(a, b, w / 2)
  }

  function Xor(a: Byte, b: Byte): Byte {
    XorFrom(a, b, 128)
  }

  lemma XorIs(a: Byte, b: Byte)
    ensures Xor(a, b) == Differing(a, b, 1) + Differing(a, b, 2) + Differing(a, b, 4) + Differing(a, b, 8)
                         + Differing(a, b, 16) + Differing(a, b, 32) + Differing(a, b, 64) + Differing(a, b, 128)
  {
    XorStep(a, b, 128);
    XorStep(a, b, 64);
    XorStep(a, b, 32);
    XorStep(a, b, 16);
    XorStep(a, b, 8);
    XorStep(a, b, 4);
    XorStep(a, b, 2);
    XorStep(a, b, 1);
  }

  lemma XorStep(a: nat, b: nat, w: nat)
    requires w > 0
    ensures XorFrom(a, b, w) == Differing(a, b, w) + XorFrom(a, b, w / 2) && XorFrom(a, b, 0) == 0
  {
  }

  lemma Halves(n: nat)
    ensures n / 2 / 2 == n / 4 && n / 4 / 2 == n / 8 && n / 8 / 2 == n / 16 && n / 16 / 2 == n / 32
    ensures n / 32 / 2 == n / 64 && n / 64 / 2 == n / 128
  {
  }

  lemma Lowest(n: nat, digit: nat, rest: nat)
    requires n == digit + 2 * rest && digit < 2
    ensures n % 2 == digit && n / 2 == rest
  {
  }

  lemma DigitsOfSum(n: nat, a: nat, b: nat, c: nat, d: nat, e: nat, f: nat, g: nat, h: nat)
    requires a < 2 && b < 2 && c < 2 && d < 2 && e < 2 && f < 2 && g < 2 && h < 2
    requires n == a + 2 * b + 4 * c + 8 * d + 16 * e + 32 * f + 64 * g + 128 * h
    ensures Digit(n, 1) == a && Digit(n, 2) == b && Digit(n, 4) == c && Digit(n, 8) == d
    ensures Digit(n, 16) == e && Digit(n, 32) == f && Digit(n, 64) == g && Digit(n, 128) == h
  {
    Halves(n);
    Lowest(n, a, b + 2 * c + 4 * d + 8 * e + 16 * f + 32 * g + 64 * h);
    Lowest(n / 2, b, c + 2 * d + 4 * e + 8 * f + 16 * g + 32 * h);
    Lowest(n / 4, c, d + 2 * e + 4 * f + 8 * g + 16 * h);
    Lowest(n / 8, d, e + 2 * f + 4 * g + 8 * h);
    Lowest(n / 16, e, f + 2 * g + 4 * h);
    Lowest(n / 32, f, g + 2 * h);
    Lowest(n / 64, g, h);
  }

  lemma FromDigits(n: Byte)
    ensures n == Digit(n, 1) + 2 * Digit(n, 2) + 4 * Digit(n, 4) + 8 * Digit(n, 8) + 16 * Digit(n, 16)
                 + 32 * Digit(n, 32) + 64 * Digit(n, 64) + 128 * Digit(n, 128)
  {
    Halves(n);
  }

  function Odd(a: nat, b: nat, w: nat): (d: nat)
    requires w > 0
    ensures d < 2 && Differing(a, b, w) == w * d
  {
    if Digit(a, w) != Digit(b, w) then 1 else 0
  }

  // The exclusive or has a one exactly where its operands differ.
  lemma XorDiffers(a: Byte, b: Byte, w: nat)
    requires IsWeight(w)
    ensures Digit(Xor(a, b), w) == 1 <==> Digit(a, w) != Digit(b, w)
  {
    XorIs(a, b);
    DigitsOfSum(Xor(a, b), Odd(a, b, 1), Odd(a, b, 2), Odd(a, b, 4), Odd(a, b, 8),
                Odd(a, b, 16), Odd(a, b, 32), Odd(a, b, 64), Odd(a, b, 128));
  }

  // A byte is determined by its digits.
  lemma SameDigits(a: Byte, b: Byte)
    requires forall w :: IsWeight(w) ==> Digit(a, w) == Digit(b, w)
    ensures a == b
  {
    FromDigits(a);
    FromDigits(b);
    assert IsWeight(1) && IsWeight(2) && IsWeight(4) && IsWeight(8);
    assert IsWeight(16) && IsWeight(32) && IsWeight(64) && IsWeight(128);
  }

  // Applying the same key twice gives the byte back.
  lemma XorCancel(a: Byte, key: Byte)
    ensures Xor(Xor(a, key), key) == a
  {
    forall w | IsWeight(w)
      ensures Digit(Xor(Xor(a, key), key), w) == Digit(a, w)
    {
      XorDiffers(a, key, w);
      XorDiffers(Xor(a, key), key, w);
    }
    SameDigits(Xor(Xor(a, key), key), a);
  }

  lemma XorCommutes(a: Byte, b: Byte)
    ensures Xor(a, b) == Xor(b, a)
  {
    XorIs(a, b);
    XorIs(b, a);
  }

  // The key is determined by a byte and its image.
  lemma XorRecoversKey(a: Byte, key1: Byte, key2: Byte)
    requires Xor(a, key1) == Xor(a, key2)
    ensures key1 == key2
  {
    XorCommutes(a, key1);
    XorCommutes(a, key2);
    XorCancel(key1, a);
    XorCancel(key2, a);
  }

  // A WORD, least significant byte first, as packed headers hold it.
  function Word(n: nat): (w: seq<Byte>)
    requires n < 0x1_0000
    ensures |w| == 2 && WordAt(w, 0) == n
  {
    [n % 0x100, n / 0x100]
  }

  function WordAt(s: seq<Byte>, i: nat): (n: nat)
    requires i + 2 <= |s|
    ensures n < 0x1_0000
  {
    var low: nat, high: nat := s[i], s[i + 1];
    low + 0x100 * high
  }

  // A 32-bit int in two's complement, least significant byte first.
  function Int32(n: int): (w: seq<Byte>)
    requires -0x8000_0000 <= n < 0x8000_0000
    ensures |w| == 4 && Int32At(w, 0) == n
  {
    var u := if n < 0 then n + 0x1_0000_0000 else n;
    Word(u % 0x1_0000) + Word(u / 0x1_0000)
  }

  function Int32At(s: seq<Byte>, i: nat): (n: int)
    requires i + 4 <= |s|
    ensures -0x8000_0000 <= n < 0x8000_0000
  {
    var u := WordAt(s, i) + 0x1_0000 * WordAt(s, i + 2);
    if u >= 0x8000_0000 then u - 0x1_0000_0000 else u
  }
}
