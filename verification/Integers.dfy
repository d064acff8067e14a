// C++ integer arithmetic where it differs from the mathematical one.
module Integers {
  // A 32-bit int.
  type Int = n: int | -0x8000_0000 <= n < 0x8000_0000

  // Integer division: the quotient is cut towards zero.
  function Truncated(a: int, b: nat): (q: int)
    requires b > 0
    ensures a >= 0 ==> q >= 0
    ensures a <= 0 ==> q <= 0
  {
    if a >= 0 then a / b else -((-a) / b)
  }

  // Multiplied back, the quotient misses the dividend by less than the divisor,
  // on the side of 0.
  lemma TruncatedMisses(a: int, b: nat)
    requires b > 0
    ensures a >= 0 ==> 0 <= a - b * Truncated(a, b) < b
    ensures a <= 0 ==> 0 <= b * Truncated(a, b) - a < b
  {
  }

  // The cast of a 64-bit to a 32-bit int keeps the low half.
  function LowHalf(n: int): (r: Int)
    ensures (r == n) <==> -0x8000_0000 <= n < 0x8000_0000
    ensures (n - r) % 0x1_0000_0000 == 0
  {
    (n + 0x8000_0000) % 0x1_0000_0000 - 0x8000_0000
  }
}
