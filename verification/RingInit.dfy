/** The capacity that `init_ring` chooses: the least power of two that is not below the requested count. */
module RingInit {
  import opened Base
  import Modular

  function Pow2(k: nat): (p: nat)
    ensures p > 0
  {
    if k == 0 then 1 else 2 * Pow2(k - 1)
  }

  ghost predicate IsPow2(n: nat) {
    exists k: nat :: n == Pow2(k)
  }

  const SIZE_BITS: nat := 64

  /** The number of values of a size_t. */
  const SIZE_MOD: nat := 0x1_0000_0000_0000_0000

  /** The number of bits needed to write x. */
  function BitLength(x: nat): nat {
    if x == 0 then 0 else 1 + BitLength(x / 2)
  }

  /** `nleading_unset_bits` of a 64-bit word. */
  function LeadingZeros(x: nat): int {
    SIZE_BITS - BitLength(x)
  }

  lemma {:induction false} Pow2Sum(a: nat, b: nat)
    ensures Pow2(a + b) == Pow2(a) * Pow2(b)
  {
    if a > 0 {
      Pow2Sum(a - 1, b);
      assert Pow2(a + b) == 2 * Pow2(a - 1 + b);
    } else {
      assert Pow2(0) == 1;
    }
  }

  lemma {:induction false} Pow2Monotone(a: nat, b: nat)
    requires a <= b
    ensures Pow2(a) <= Pow2(b)
  {
    if a < b { Pow2Monotone(a, b - 1); }
  }

  /** A positive number of b bits lies in [2^(b-1), 2^b). */
  lemma {:induction false} BitLengthBounds(x: nat)
    requires x > 0
    ensures BitLength(x) > 0 && Pow2(BitLength(x) - 1) <= x < Pow2(BitLength(x))
  {
    if x == 1 {
      assert BitLength(1) == 1 + BitLength(0) && Pow2(0) == 1 && Pow2(1) == 2 * Pow2(0);
    } else {
      BitLengthBounds(x / 2);
      var b := BitLength(x / 2);
      assert BitLength(x) == b + 1 && Pow2(b + 1) == 2 * Pow2(b) && Pow2(b) == 2 * Pow2(b - 1);
    }
  }

  lemma SizeModIsPow2()
    ensures SIZE_MOD == Pow2(SIZE_BITS)
  {
    assert Pow2(2) == 4;
    assert Pow2(4) == 16 by { Pow2Sum(2, 2); }
    assert Pow2(8) == 0x100 by { Pow2Sum(4, 4); }
    assert Pow2(16) == 0x1_0000 by { Pow2Sum(8, 8); }
    assert Pow2(32) == 0x1_0000_0000 by { Pow2Sum(16, 16); }
    Pow2Sum(32, 32);
  }

  /** A right shift of a word by k bits. */
  function ShiftRight(x: nat, k: nat): nat {
    if k == 0 then x else ShiftRight(x / 2, k - 1)
  }

  lemma {:induction false} ShiftPow2(a: nat, k: nat)
    requires k <= a
    ensures ShiftRight(Pow2(a), k) == Pow2(a - k)
  {
    if k > 0 {
      assert Pow2(a) == 2 * Pow2(a - 1);
      ShiftPow2(a - 1, k - 1);
    }
  }

  /**
    The count computed by `init_ring`. The shift distance is negative, and the shift undefined in C, for
    more than 2^63 elements, so such requests are outside the domain.
   */
  function RingCount(minCount: nat, size: nat): Option<nat>
    requires minCount <= SIZE_MOD / 2
  {
    if minCount == 0 || size == 0 then None
    else if minCount <= 2 then Some(minCount)
    else
      var shift := LeadingZeros(minCount - 1) - 1;
      var count := if shift < 0 then 0 else ShiftRight(SIZE_MOD / 2, shift);
      if count == 0 then None else Some(count)
  }

  /** Shifting the top bit right leaves the power of two just above minCount - 1. */
  lemma ShiftedTopBit(x: nat)
    requires 0 < x < SIZE_MOD / 2
    ensures 1 <= BitLength(x) <= 63 && LeadingZeros(x) >= 1
    ensures ShiftRight(SIZE_MOD / 2, LeadingZeros(x) - 1) == Pow2(BitLength(x))
  {
    BitLengthBounds(x);
    SizeModIsPow2();
    var b := BitLength(x);
    assert Pow2(64) == 2 * Pow2(63);
    if b > 63 { Pow2Monotone(63, b - 1); }
    ShiftPow2(63, 63 - b);
  }

  /**
    For every requested count from 1 to 2^63 the ring gets a power of two that is at least the count, no
    power of two that is at least the count is smaller, and its size divides the range of size_t.
   */
  lemma RingCountIsLeastPow2(minCount: nat, size: nat)
    requires 0 < minCount <= SIZE_MOD / 2 && size > 0
    ensures RingCount(minCount, size).Some?
    ensures var n := RingCount(minCount, size).value;
            && IsPow2(n) && minCount <= n <= SIZE_MOD / 2 && SIZE_MOD % n == 0
            && forall p: nat :: IsPow2(p) && minCount <= p ==> n <= p
  {
    if minCount <= 2 {
      assert Pow2(0) == 1 && Pow2(1) == 2 * Pow2(0);
      assert minCount == Pow2(minCount - 1);
    } else {
      var b := BitLength(minCount - 1);
      ShiftedTopBit(minCount - 1);
      BitLengthBounds(minCount - 1);
      var n := Pow2(b);
      assert RingCount(minCount, size) == Some(n);
      forall p: nat | IsPow2(p) && minCount <= p ensures n <= p {
        var k: nat :| p == Pow2(k);
        if k < b { Pow2Monotone(k, b - 1); }
        Pow2Monotone(if k < b then k else b, k);
      }
      DividesRange(b);
    }
  }

  lemma DividesRange(b: nat)
    requires b <= 63
    ensures Pow2(b) <= SIZE_MOD / 2 && SIZE_MOD % Pow2(b) == 0
  {
    SizeModIsPow2();
    assert Pow2(64) == 2 * Pow2(63);
    Pow2Monotone(b, 63);
    Pow2Sum(b, 64 - b);
    Modular.Unique(SIZE_MOD, Pow2(b), Pow2(64 - b), 0);
  }

  /** No count and no size is refused. */
  lemma RingCountRefuses(minCount: nat, size: nat)
    requires minCount <= SIZE_MOD / 2
    ensures RingCount(minCount, size) == None <==> minCount == 0 || size == 0
  {
    if minCount != 0 && size != 0 { RingCountIsLeastPow2(minCount, size); }
  }
}
