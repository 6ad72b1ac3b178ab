/** Integer arithmetic as the two source languages define it.  Dafny's `/` is
    Euclidean; Python's `//` floors and C++'s `/` (and Python's `int(a / b)`)
    truncates toward zero, so both are written out here with the property that
    defines them. */
module Arith {

  function Abs(x: int): nat {
    if x < 0 then -x else x
  }

  /** 2 to the power k (Python's `2**k` for a non-negative k). */
  function Pow2(k: nat): (r: nat)
    ensures r >= 1
  {
    if k == 0 then 1 else 2 * Pow2(k - 1)
  }

  lemma {:induction false} Pow2Add(a: nat, b: nat)
    ensures Pow2(a + b) == Pow2(a) * Pow2(b)
  {
    if a > 0 {
      Pow2Add(a - 1, b);
      assert Pow2(a + b) == 2 * Pow2(a - 1 + b);
    }
  }

  /** Python's `a // b`: the quotient rounded toward negative infinity. */
  function FloorDiv(a: int, b: int): (q: int)
    requires b != 0
    ensures b > 0 ==> q * b <= a < q * b + b
    ensures b < 0 ==> q * b + b < a <= q * b
  {
    if b > 0 then a / b else (-a) / (-b)
  }

  /** C++'s `a / b` on `int`: the quotient rounded toward zero.  The product
      `q * b` never exceeds `a` in magnitude, is within `|b|` of it, and never
      has the opposite sign. */
  function TruncDiv(a: int, b: int): (q: int)
    requires b != 0
    ensures Abs(q * b) <= Abs(a) < Abs(q * b) + Abs(b)
    ensures a >= 0 ==> q * b >= 0
    ensures a <= 0 ==> q * b <= 0
  {
    var n := Abs(a) / Abs(b);
    TruncCase(a, b, n);
    if (a < 0) == (b < 0) then n as int else -(n as int)
  }

  lemma TruncCase(a: int, b: int, n: nat)
    requires b != 0 && n == Abs(a) / Abs(b)
    ensures var q: int := if (a < 0) == (b < 0) then n as int else -(n as int);
      Abs(q * b) == n * Abs(b) && (a >= 0 ==> q * b >= 0) && (a <= 0 ==> q * b <= 0)
  {
    var q: int := if (a < 0) == (b < 0) then n as int else -(n as int);
    if b > 0 {
      assert Abs(b) == b;
      if a < 0 { assert q * b == -(n * b); }
    } else {
      assert Abs(b) == -b;
      if a < 0 { assert q * b == -(n * -b); } else { assert q * b == n * -b; }
    }
  }

  /** The mathematical ceiling of `a / b` for a positive `b`. */
  function CeilDiv(a: int, b: int): (q: int)
    requires b > 0
    ensures (q - 1) * b < a <= q * b
  {
    -((-a) / b)
  }

  lemma MulMonotone(a: int, b: int, p: int)
    requires a <= b && p >= 0
    ensures a * p <= b * p
  {
    assert b * p - a * p == (b - a) * p;
  }

  /** With a positive factor the product has the other factor's sign. */
  lemma PositiveFactor(q: int, b: int)
    requires b > 0
    ensures q * b > 0 <==> q > 0
    ensures q * b < 0 <==> q < 0
  {
  }

  lemma MulAtLeastOne(x: int, b: int)
    requires b > 0
    ensures x >= 1 ==> x * b >= b
  {
  }

  /** For a positive divisor the quotient that satisfies the floor (or
      ceiling) bounds is unique, so the bounds above pin the functions down. */
  lemma FloorUnique(a: int, b: int, q: int)
    requires b > 0 && q * b <= a < q * b + b
    ensures q == FloorDiv(a, b)
  {
    var f := FloorDiv(a, b);
    MulAtLeastOne(q - f, b);
    MulAtLeastOne(f - q, b);
  }

  /** An exact product divides evenly. */
  lemma ExactDivision(a: int, b: int, q: int)
    requires b > 0 && q * b == a
    ensures FloorDiv(a, b) == q && a % b == 0
  {
    FloorUnique(a, b, q);
    assert a == (a / b) * b + a % b;
  }

  /** An exact quotient is what truncating division returns. */
  lemma TruncDivExact(a: int, b: int, q: int)
    requires b > 0 && a == q * b
    ensures TruncDiv(a, b) == q
  {
    PositiveFactor(q, b);
    var n := Abs(q);
    assert n * b == Abs(a) by {
      if q < 0 {
        assert n * b == -(q * b);
      }
    }
    ExactDivision(Abs(a), b, n);
    assert Abs(a) / Abs(b) == n;
  }

  lemma CeilUnique(a: int, b: int, q: int)
    requires b > 0 && (q - 1) * b < a <= q * b
    ensures q == CeilDiv(a, b)
  {
    var c := CeilDiv(a, b);
    MulAtLeastOne(q - c, b);
    MulAtLeastOne(c - q, b);
  }

  /** The C idiom `(a + b - 1) / b` is the ceiling of `a / b` whenever the
      numerator is not negative, i.e. for every `a > -b`. */
  lemma TruncCeilIdiom(a: int, b: int)
    requires b > 0 && a + b - 1 >= 0
    ensures TruncDiv(a + b - 1, b) == CeilDiv(a, b)
  {
    var q := TruncDiv(a + b - 1, b);
    assert q * b <= a + b - 1 < q * b + b;
    assert (q - 1) * b < a <= q * b;
    CeilUnique(a, b, q);
  }

  /** Rounding up twice equals rounding up once by the product of the
      divisors: ceil(ceil(a / b) / c) == ceil(a / (b * c)). */
  lemma CeilDivNested(a: int, b: int, c: int)
    requires b > 0 && c > 0
    ensures CeilDiv(CeilDiv(a, b), c) == CeilDiv(a, b * c)
  {
    var x := CeilDiv(a, b);
    var y := CeilDiv(x, c);
    assert (x - 1) * b < a <= x * b;
    assert (y - 1) * c < x <= y * c;
    assert a <= y * (b * c) by {
      assert x * b <= (y * c) * b;
    }
    assert (y - 1) * (b * c) < a by {
      assert (y - 1) * c <= x - 1;
      assert ((y - 1) * c) * b <= (x - 1) * b;
    }
    CeilUnique(a, b * c, y);
  }
}
