// The dummy client's round-trip statistics. A snapshot reports least, greatest
// and average value and starts a new averaging window, but keeps least and
// greatest. The average is a 32-bit quotient that passes through a float.
module RttStats {
  import opened Bytes
  import opened Integers

  const INT_MIN := -0x8000_0000
  const INT_MAX := 0x7fff_ffff

  // ---- int to float and back -------------------------------------------------------------

  // The distance of neighbouring floats at n: 24 bits are kept.
  function Spacing(n: nat): (u: nat)
    ensures u > 0
  {
    if n < 0x100_0000 then 1 else 2 * Spacing(n / 2)
  }

  // Round to nearest, ties to even.
  function NearestNat(n: nat): nat {
    NearestOn(n, Spacing(n))
  }

  function NearestOn(n: nat, u: nat): nat
    requires u > 0
  {
    NearestMultiple(n / u, n % u, u)
  }

  // k * u + r, rounded.
  function NearestMultiple(k: nat, r: nat, u: nat): nat {
    if 2 * r < u || (2 * r == u && k % 2 == 0) then k * u else (k + 1) * u
  }

  function Magnitude(n: int): nat {
    if n < 0 then -n else n
  }

  function Nearest(n: int): int {
    if n < 0 then 0 - NearestNat(-n) else NearestNat(n)
  }

  // Out of range, the conversion instruction yields INT_MIN.
  function BackToInt(f: int): Int {
    if INT_MIN <= f <= INT_MAX then f else INT_MIN
  }

  // A float can hold n: it has no ones below the 24 leading bits.
  predicate Representable(n: int) {
    Magnitude(n) % Spacing(Magnitude(n)) == 0
  }

  // ---- the operations -----------------------------------------------------------------------

  function Sum(s: seq<Int>): int {
    if s == [] then 0 else Sum(s[..|s| - 1]) + s[|s| - 1]
  }

  // The value of (count > 0) ? (int)sum / count : 0.0f, assigned to an int.
  function ReportedAverage(sum: int, count: nat): Int {
    if count > 0 then BackToInt(Nearest(Truncated(LowHalf(sum), count))) else 0
  }

  class MonitoringDataStats {
    var minValue: Int
    var maxValue: Int
    var sum: int
    var count: nat

    // The values since the last snapshot or reset, and since the last reset.
    ghost var window: seq<Int>
    ghost var all: seq<Int>

    ghost predicate Valid()
      reads this
    {
      && sum == Sum(window) && count == |window| && (forall v :: v in window ==> v in all)
      && Least(all, minValue) && Greatest(all, maxValue)
    }

    constructor ()
      ensures Valid() && window == [] && all == []
    {
      minValue, maxValue, sum, count := INT_MAX, INT_MIN, 0, 0;
      window, all := [], [];
    }

    method Add(value: Int)
      requires Valid() && |window| < INT_MAX
      modifies this
      ensures Valid() && window == old(window) + [value] && all == old(all) + [value]
    {
      if value < minValue {
        minValue := value;
      }
      if value > maxValue {
        maxValue := value;
      }
      sum := sum + value;
      count := count + 1;
      assert (window + [value])[..|window|] == window;
      window, all := window + [value], all + [value];
    }

    method Reset()
      requires Valid()
      modifies this
      ensures Valid() && window == [] && all == []
    {
      minValue, maxValue, sum, count := INT_MAX, INT_MIN, 0, 0;
      window, all := [], [];
    }

    method GetSnapshot() returns (outMin: Int, outMax: Int, outAvg: Int)
      requires Valid()
      modifies this
      ensures Valid() && window == [] && all == old(all)
      ensures Least(all, outMin) && Greatest(all, outMax)
      ensures outAvg == ReportedAverage(Sum(old(window)), |old(window)|)
      ensures old(window) == [] ==> outAvg == 0
      ensures forall v :: v in old(window) ==> v in all
    {
      outMin, outMax := minValue, maxValue;
      outAvg := ReportedAverage(sum, count);
      sum, count := 0, 0;
      window := [];
    }
  }

  // The least element, and INT_MAX when there is none.
  ghost predicate Least(s: seq<Int>, m: Int) {
    (forall v :: v in s ==> m <= v) && if s == [] then m == INT_MAX else m in s
  }

  ghost predicate Greatest(s: seq<Int>, m: Int) {
    (forall v :: v in s ==> v <= m) && if s == [] then m == INT_MIN else m in s
  }

  // ---- the average lies between least and greatest ----------------------------------------------

  lemma {:induction false} SumBetween(s: seq<Int>, low: Int, high: Int)
    requires forall i :: 0 <= i < |s| ==> low <= s[i] <= high
    ensures |s| * low <= Sum(s) <= |s| * high
  {
    if s != [] {
      SumBetween(s[..|s| - 1], low, high);
      assert |s| * low == (|s| - 1) * low + low && |s| * high == (|s| - 1) * high + high;
    }
  }

  lemma QuotientBetween(sum: int, count: nat, low: int, high: int)
    requires count > 0 && count * low <= sum <= count * high
    ensures low <= Truncated(sum, count) <= high
  {
    TruncatedMisses(sum, count);
    NearQuotient(sum, count, Truncated(sum, count), low, high);
  }

  lemma NearQuotient(sum: int, count: nat, q: int, low: int, high: int)
    requires count * low <= sum <= count * high && 0 - count < count * q - sum < count
    ensures low <= q <= high
  {
    if q < low {
      Below(count, q + 1, low);
    }
    if q > high {
      Below(count, high, q - 1);
    }
  }

  lemma Below(n: nat, a: int, b: int)
    requires a <= b
    ensures n * a <= n * b
  {
  }

  function Mean(s: seq<Int>): int
    requires s != []
  {
    Truncated(Sum(s), |s|)
  }

  lemma MeanBetween(s: seq<Int>, low: Int, high: Int)
    requires s != [] && forall v :: v in s ==> low <= v <= high
    ensures low <= Mean(s) <= high
  {
    forall i | 0 <= i < |s|
      ensures low <= s[i] <= high
    {
      assert s[i] in s;
    }
    SumBetween(s, low, high);
    QuotientBetween(Sum(s), |s|, low, high);
  }

  // ---- when the reported average is the mean ------------------------------------------------------

  lemma {:induction false} SpacingAtMost(n: nat, k: nat)
    requires n < 0x100_0000 * Pow2(k)
    ensures Spacing(n) <= Pow2(k)
    decreases k
  {
    if n >= 0x100_0000 {
      SpacingAtMost(n / 2, k - 1);
    }
  }

  lemma SmallIsRepresentable(n: int)
    requires -0x100_0000 <= n <= 0x100_0000
    ensures Representable(n)
  {
    assert Spacing(0x80_0000) == 1 && Spacing(0x100_0000) == 2;
  }

  lemma NearestNatError(n: nat)
    ensures n - Spacing(n) < NearestNat(n) < n + Spacing(n)
    ensures NearestNat(n) == n <==> n % Spacing(n) == 0
  {
    NearestOnError(n, Spacing(n));
  }

  lemma NearestOnError(n: nat, u: nat)
    requires u > 0
    ensures n - u < NearestOn(n, u) < n + u
    ensures NearestOn(n, u) == n <==> n % u == 0
  {
    assert n == u * (n / u) + n % u;
    NearestMultipleError(n / u, n % u, u);
  }

  lemma NearestMultipleError(k: nat, r: nat, u: nat)
    requires r < u
    ensures u * k + r - u < NearestMultiple(k, r, u) < u * k + r + u
    ensures NearestMultiple(k, r, u) == u * k + r <==> r == 0
  {
    assert (k + 1) * u == u * k + u;
  }

  // Every number is rounded to the nearest of those that have no ones below its
  // 24 leading bits, and half-way to one with an even last bit; a negative one
  // as its opposite.
  lemma RoundsToNearest(n: nat, m: nat)
    requires m % Spacing(n) == 0
    ensures Keeps24(n, Spacing(n)) && NearestNat(n) % Spacing(n) == 0 
    ensures Nearest(n) == NearestNat(n) && Nearest(0 - n) == 0 - NearestNat(n)
    ensures Magnitude(NearestNat(n) - n) <= Magnitude(m - n)
    ensures Magnitude(NearestNat(n) - n) == Magnitude(m - n) ==>
              m == NearestNat(n) || NearestNat(n) / Spacing(n) % 2 == 0
  {
    SpacingKeeps24(n);
    RoundsTo(n, Spacing(n), m);
    NearestSign(n);
  }

  lemma NearestSign(n: nat)
    ensures Nearest(n) == NearestNat(n) && Nearest(0 - n) == 0 - NearestNat(n)
  {
  }

  lemma RoundsTo(n: nat, u: nat, m: nat)
    requires u > 0 && m % u == 0
    ensures NearestOn(n, u) % u == 0 && Magnitude(NearestOn(n, u) - n) <= Magnitude(m - n)
    ensures Magnitude(NearestOn(n, u) - n) == Magnitude(m - n) ==> m == NearestOn(n, u) || NearestOn(n, u) / u % 2 == 0
  {
    assert n == u * (n / u) + n % u && m == u * (m / u) + m % u;
    RoundsOn(n / u, n % u, u, m / u);
  }

  // A power of two that leaves 24 bits of n, or 1.
  ghost predicate Keeps24(n: nat, u: nat) {
    u > 0 && (if n < 0x100_0000 then u == 1 else 0x80_0000 <= n / u < 0x100_0000) && exists k: nat :: u == Pow2(k)
  }

  lemma {:induction false} SpacingKeeps24(n: nat)
    ensures Keeps24(n, Spacing(n))
    decreases n
  {
    if n < 0x100_0000 {
      assert Pow2(0) == 1;
    } else {
      SpacingKeeps24(n / 2);
      var k: nat :| Spacing(n / 2) == Pow2(k);
      assert Spacing(n) == Pow2(k + 1);
      DivideTwice(n, Spacing(n / 2));
      if n / 2 < 0x100_0000 {
        assert Spacing(n / 2) == 1;
      }
    }
  }

  lemma DivideTwice(n: nat, u: nat)
    requires u > 0
    ensures n / (2 * u) == n / 2 / u
  {
    var q, r := n / 2 / u, n / 2 % u;
    assert n / 2 == u * q + r;
    assert n == (2 * u) * q + (2 * r + n % 2);
    Quotient(n, 2 * u, q, 2 * r + n % 2);
  }

  lemma Quotient(n: nat, u: nat, q: nat, r: nat)
    requires n == u * q + r && r < u
    ensures n / u == q
  {
    var p := n / u;
    assert n == u * p + n % u;
    if p < q {
      Below(u, p + 1, q);
    } else if q < p {
      Below(u, q + 1, p);
    }
  }

  lemma RoundsOn(k: nat, r: nat, u: nat, j: nat)
    requires r < u
    ensures var v, n := NearestMultiple(k, r, u), u * k + r;
            && v % u == 0 && Magnitude(v - n) <= Magnitude(u * j - n)
            && (Magnitude(v - n) == Magnitude(u * j - n) ==> v == u * j || v / u % 2 == 0)
  {
    NearestIs(k, r, u);
    OutsideTheTwo(k, u, j);
    CloserOfTwo(u * k, r, u, u * j, k % 2 == 0);
  }

  lemma NearestIs(k: nat, r: nat, u: nat)
    requires u > 0
    ensures var v, down := NearestMultiple(k, r, u), 2 * r < u || (2 * r == u && k % 2 == 0);
            v % u == 0 && v / u == (if down then k else k + 1) && v == if down then u * k else u * k + u
  {
    MultipleOf(k, u);
    MultipleOf(k + 1, u);
    assert (k + 1) * u == u * k + u;
  }

  lemma CloserOfTwo(a: nat, r: nat, u: nat, m: nat, even: bool)
    requires r < u && (m + u <= a || m == a || m == a + u || a + 2 * u <= m)
    ensures var v := if 2 * r < u || (2 * r == u && even) then a else a + u;
            && Magnitude(v - (a + r)) <= Magnitude(m - (a + r))
            && (Magnitude(v - (a + r)) == Magnitude(m - (a + r)) ==> v == m || (v == a <==> even))
  {
  }

  // Multiples other than the two around k * u + r are farther away.
  lemma OutsideTheTwo(k: nat, u: nat, j: nat)
    ensures u * (k + 1) == u * k + u
    ensures u * j + u <= u * k || u * j == u * k || u * j == u * k + u || u * k + 2 * u <= u * j
  {
    if j < k {
      Below(u, j + 1, k);
      assert u * (j + 1) == u * j + u;
    } else if j > k + 1 {
      Below(u, k + 2, j);
      assert u * (k + 2) == u * k + 2 * u;
    }
  }

  lemma MultipleOf(k: nat, u: nat)
    requires u > 0
    ensures k * u % u == 0 && k * u / u == k
  {
    Quotient(k * u, u, k, 0);
    assert k * u == u * (k * u / u) + k * u % u;
  }

  lemma NearestIsExact(n: int)
    ensures Nearest(n) == n <==> Representable(n)
  {
    NearestNatError(Magnitude(n));
  }

  // A sum that fits 32 bits: only the float can spoil the average.
  lemma FittingAverage(sum: int, count: nat)
    requires count > 0 && INT_MIN <= sum <= INT_MAX
    ensures ReportedAverage(sum, count) == Truncated(sum, count) <==> Representable(Truncated(sum, count))
  {
    var q := Truncated(sum, count);
    NearestIsExact(q);
    QuotientNoLarger(sum, count);
    assert Spacing(0x8000_0000) == 256;
  }

  lemma QuotientNoLarger(sum: int, count: nat)
    requires count > 0
    ensures Magnitude(Truncated(sum, count)) <= Magnitude(sum)
    ensures count * Magnitude(Truncated(sum, count)) <= Magnitude(sum)
  {
    var m := Magnitude(sum);
    assert m == count * (m / count) + m % count;
    Below(m / count, 1, count);
  }

  // A sum that does not fit: the cut-off half is worth more than any rounding
  // could make up for.
  lemma OverflownAverage(sum: int, count: nat)
    requires 1 < count <= INT_MAX && !(INT_MIN <= sum <= INT_MAX)
    ensures ReportedAverage(sum, count) != Truncated(sum, count)
  {
    var q, m := Truncated(LowHalf(sum), count), Truncated(sum, count);
    QuotientNoLarger(LowHalf(sum), count);
    QuotientsApart(sum, count);
    NearestIsExact(q);
    if Magnitude(q) <= 0x100_0000 {
      SmallIsRepresentable(q);
    } else {
      LargeQuotient(Magnitude(q), count);
      NearestNatError(Magnitude(q));
      FarApart(count, m - q);
    }
  }

  lemma QuotientsApart(sum: int, count: nat)
    requires 1 < count <= INT_MAX && !(INT_MIN <= sum <= INT_MAX)
    ensures Magnitude(count * (Truncated(sum, count) - Truncated(LowHalf(sum), count))) >= 0x1_0000_0000 - 2 * count
    ensures Truncated(sum, count) != Truncated(LowHalf(sum), count)
  {
    var q, m := Truncated(LowHalf(sum), count), Truncated(sum, count);
    TruncatedMisses(LowHalf(sum), count);
    TruncatedMisses(sum, count);
    LostHalf(sum);
    assert count * (m - q) == count * m - count * q;
  }

  lemma LostHalf(sum: int)
    requires !(INT_MIN <= sum <= INT_MAX)
    ensures sum - LowHalf(sum) >= 0x1_0000_0000 || LowHalf(sum) - sum >= 0x1_0000_0000
  {
  }

  lemma LargeQuotient(q: nat, count: nat)
    requires q > 0x100_0000 && 1 < count && count * q <= 0x8000_0000
    ensures count < 128 && q <= 0x4000_0000 && Spacing(q) <= 128
  {
    if count >= 128 {
      Below(q, 128, count);
    }
    Below(q, 2, count);
    assert Pow2(7) == 128;
    SpacingAtMost(q, 7);
  }

  lemma FarApart(count: nat, d: int)
    requires 1 < count < 128 && Magnitude(count * d) >= 0x1_0000_0000 - 2 * count
    ensures Magnitude(d) > 0x10_0000
  {
  }

  // The snapshot shows the mean of its window exactly when the sum fits 32 bits
  // and a float can hold the mean.
  lemma AverageIsMean(s: seq<Int>)
    requires 0 < |s| <= INT_MAX
    ensures ReportedAverage(Sum(s), |s|) == Mean(s) <==> INT_MIN <= Sum(s) <= INT_MAX && Representable(Mean(s))
  {
    if INT_MIN <= Sum(s) <= INT_MAX {
      FittingAverage(Sum(s), |s|);
    } else {
      if |s| == 1 {
        OneValueFits(s);
      }
      OverflownAverage(Sum(s), |s|);
    }
  }

  lemma OneValueFits(s: seq<Int>)
    requires |s| == 1
    ensures Sum(s) == s[0]
  {
    assert s[..0] == [];
  }

  // Then it also lies between the least and the greatest value, although these
  // may be older than the window.
  lemma SnapshotIsOrdered(all: seq<Int>, window: seq<Int>, least: Int, greatest: Int)
    requires 0 < |window| <= INT_MAX && Least(all, least) && Greatest(all, greatest)
    requires forall v :: v in window ==> v in all
    requires INT_MIN <= Sum(window) <= INT_MAX && Representable(Mean(window))
    ensures least <= ReportedAverage(Sum(window), |window|) <= greatest
  {
    AverageIsMean(window);
    MeanBetween(window, least, greatest);
  }

  // One value that a float rounds to 2^31 does not fit an int any more and is
  // averaged to the least int.
  lemma LargestBecomesLeast(v: Int)
    requires v >= 0
    ensures ReportedAverage(Sum([v]), 1) < 0 <==> v >= 0x7fff_ffc0
    ensures v >= 0x7fff_ffc0 ==> ReportedAverage(Sum([v]), 1) == -0x8000_0000
  {
    OneValueFits([v]);
    SpacingAtMost(v, 7);
    assert Pow2(7) == 128;
    if v >= 0x4000_0000 {
      SpacingIs(v, 7);
    } else {
      NearestNatError(v);
    }
  }

  lemma {:induction false} SpacingIs(v: nat, k: nat)
    requires 0x80_0000 * Pow2(k) <= v < 0x100_0000 * Pow2(k)
    ensures Spacing(v) == Pow2(k)
    decreases k
  {
    if k > 0 {
      SpacingIs(v / 2, k - 1);
    }
  }

  // Both conditions matter: two values whose sum is too large, and one value a
  // float cannot hold, are each averaged to less than the least value.
  lemma AverageBelowLeast()
    ensures ReportedAverage(Sum([INT_MAX, INT_MAX]), 2) == -1
    ensures ReportedAverage(Sum([0x100_0001]), 1) == 0x100_0000
  {
    assert [INT_MAX, INT_MAX][..1] == [INT_MAX] && [INT_MAX][..0] == [];
    assert [0x100_0001][..0] == [];
    assert Sum([INT_MAX]) == INT_MAX;
    assert LowHalf(2 * INT_MAX) == -2;
    assert Truncated(-2, 2) == -1 && Nearest(-1) == -1;
    assert Spacing(0x80_0000) == 1 && Spacing(0x100_0001) == 2;
  }
}
