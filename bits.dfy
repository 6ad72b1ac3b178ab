/** Python's unbounded integers seen as bit strings: `|` and `<<` on
    non-negative integers, and the bit positions they set. */
module Bits {
  import opened Arith

  /** Bit `k` of `n` (bit 0 is the least significant). */
  function Bit(n: nat, k: nat): bool {
    if k == 0 then n % 2 == 1 else Bit(n / 2, k - 1)
  }

  /** Python's `a | b` on non-negative integers. */
  function BitOr(a: nat, b: nat): nat
    decreases a + b
  {
    if a == 0 then b
    else if b == 0 then a
    else 2 * BitOr(a / 2, b / 2) + (if a % 2 == 1 || b % 2 == 1 then 1 else 0)
  }

  /** Python's `a << s` on a non-negative integer. */
  function ShiftLeft(a: nat, s: nat): nat {
    a * Pow2(s)
  }

  /** Python's `2**c - 1`: the mask of the `c` lowest bits. */
  function LowMask(c: nat): nat {
    Pow2(c) - 1
  }

  lemma {:induction false} BitZero(k: nat)
    ensures !Bit(0, k)
  {
    if k > 0 { BitZero(k - 1); }
  }

  /** A bit is set in `a | b` exactly when it is set in `a` or in `b`. */
  lemma {:induction false} BitOrBit(a: nat, b: nat, k: nat)
    ensures Bit(BitOr(a, b), k) == (Bit(a, k) || Bit(b, k))
    decreases a + b
  {
    if a == 0 {
      BitZero(k);
    } else if b == 0 {
      BitZero(k);
    } else {
      var r := BitOr(a / 2, b / 2);
      var low := if a % 2 == 1 || b % 2 == 1 then 1 else 0;
      assert BitOr(a, b) == 2 * r + low;
      assert (2 * r + low) / 2 == r;
      assert (2 * r + low) % 2 == low;
      if k > 0 {
        BitOrBit(a / 2, b / 2, k - 1);
      }
    }
  }

  lemma BitDouble(x: nat, k: nat)
    ensures Bit(2 * x, k) == (k > 0 && Bit(x, k - 1))
  {
    assert (2 * x) / 2 == x;
  }

  /** Shifting left by `s` moves bit `k - s` to position `k` and clears the
      `s` lowest bits. */
  lemma {:induction false} BitShift(a: nat, s: nat, k: nat)
    ensures Bit(ShiftLeft(a, s), k) == (k >= s && Bit(a, k - s))
  {
    if s > 0 {
      assert ShiftLeft(a, s) == 2 * ShiftLeft(a, s - 1);
      BitDouble(ShiftLeft(a, s - 1), k);
      if k > 0 {
        BitShift(a, s - 1, k - 1);
      }
    }
  }

  /** Exactly the bits below `c` are set in `2**c - 1`. */
  lemma {:induction false} BitLowMask(c: nat, k: nat)
    ensures Bit(LowMask(c), k) == (k < c)
  {
    if c == 0 {
      BitZero(k);
    } else {
      var m := LowMask(c - 1);
      assert LowMask(c) == 2 * m + 1;
      assert (2 * m + 1) / 2 == m;
      if k > 0 {
        BitLowMask(c - 1, k - 1);
      }
    }
  }

  lemma ShiftShift(a: nat, s: nat, t: nat)
    ensures ShiftLeft(ShiftLeft(a, s), t) == ShiftLeft(a, s + t)
  {
    Pow2Add(s, t);
    assert a * Pow2(s) * Pow2(t) == a * (Pow2(s) * Pow2(t));
  }
}
