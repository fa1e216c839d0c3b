/** The integer helpers of the example program: a 32-bit population count,
    ceiling division on C `int`, and rounding up to a multiple. */
module Helper {
  import opened Types

  // ---------------------------------------------------------------------------
  // popCount
  // ---------------------------------------------------------------------------

  /** Bit `i` of `x` is set. */
  predicate BitSet(x: bv32, i: nat)
    requires i < 32
  {
    x & (1 << i) != 0
  }

  /** The positions of the set bits of `x` (the reference meaning of a bit count). */
  ghost function SetBitPositions(x: bv32, n: nat): set<nat>
    requires n <= 32
  {
    set i: nat | i < n && BitSet(x, i)
  }

  /** Number of set bits among bits 0 .. n-1 of `x`. */
  function CountBits(x: bv32, n: nat): (r: nat)
    requires n <= 32
    ensures r <= n
    ensures r == |SetBitPositions(x, n)|
    decreases n
  {
    if n == 0 then
      assert SetBitPositions(x, 0) == {};
      0
    else
      var below := CountBits(x, n - 1);
      var top: nat := if BitSet(x, n - 1) then 1 else 0;
      assert SetBitPositions(x, n) ==
        SetBitPositions(x, n - 1) + (if BitSet(x, n - 1) then {n - 1} else {});
      below + top
  }

  /** `popCount`: the number of 1-bits of a 32-bit word (the compiler intrinsic). */
  function PopCount(bits: bv32): (r: u32)
    ensures r <= 32
    ensures r == |SetBitPositions(bits, 32)|
  {
    CountBits(bits, 32)
  }

  lemma PairBitsBv(g: bv32, p: bv32, i: bv32)
    requires g < 32 && p < 32 && i < 32
    ensures ((1 as bv32 << g) | (1 << p)) & (1 << i) != 0 <==> (i == g || i == p)
  {
  }

  /** The only set bits of `(1 << g) | (1 << p)` are `g` and `p`. */
  lemma PairBits(g: nat, p: nat, i: nat)
    requires g < 32 && p < 32 && i < 32
    ensures BitSet((1 << g) | (1 << p), i) <==> (i == g || i == p)
  {
    PairBitsBv(g as bv32, p as bv32, i as bv32);
  }

  /** `PairBits` at every position at once, for the mask `m` of `g` and `p`. */
  lemma PairBitsEverywhere(g: nat, p: nat, m: bv32)
    requires g < 32 && p < 32 && m == (1 << g) | (1 << p)
    ensures forall i :: 0 <= i < 32 ==> (BitSet(m, i) <==> (i == g || i == p))
  {
    forall i | 0 <= i < 32
      ensures BitSet(m, i) <==> (i == g || i == p)
    {
      PairBits(g, p, i);
    }
  }

  /** Counting the bits below `n` of a word whose set bits are exactly `g` and `p`. */
  lemma {:induction false} CountBitsOfPair(x: bv32, g: nat, p: nat, n: nat)
    requires g < 32 && p < 32 && n <= 32
    requires x == (1 << g) | (1 << p)
    ensures CountBits(x, n) == (if g < n then 1 else 0) + (if p < n && p != g then 1 else 0)
    decreases n
  {
    if n > 0 {
      CountBitsOfPair(x, g, p, n - 1);
      PairBits(g, p, n - 1);
      assert CountBits(x, n) == CountBits(x, n - 1) + if BitSet(x, n - 1) then 1 else 0;
    }
  }

  /** `popCount((1 << g) | (1 << p))` is 1 when the positions coincide and 2 otherwise. */
  lemma PopCountOfPair(g: nat, p: nat)
    requires g < 32 && p < 32
    ensures PopCount((1 << g) | (1 << p)) == if g == p then 1 else 2
  {
    CountBitsOfPair((1 << g) | (1 << p), g, p, 32);
  }

  // ---------------------------------------------------------------------------
  // divideRoundUp
  // ---------------------------------------------------------------------------

  function Abs(x: int): nat {
    if x < 0 then -x else x
  }

  lemma MulLe(x: int, y: int, b: int)
    requires b >= 0 && x <= y
    ensures x * b <= y * b
  {
  }

  lemma LessMul(x: int, y: int, b: int)
    requires b > 0 && x * b < y * b
    ensures x < y
  {
    if x >= y {
      MulLe(y, x, b);
    }
  }

  lemma DivLe(n: nat, d: nat)
    requires d >= 1
    ensures n / d <= n
  {
  }

  lemma DivMod(n: int, d: int)
    requires d >= 1
    ensures n == (n / d) * d + n % d && 0 <= n % d < d
  {
  }

  /** Quotient and remainder are unique. */
  lemma DivUnique(n: int, d: int, q: int, r: int)
    requires d >= 1 && n == q * d + r && 0 <= r < d
    ensures n / d == q && n % d == r
  {
    var q' := n / d;
    DivMod(n, d);
    if q' < q {
      MulLe(q' + 1, q, d);
    } else if q < q' {
      MulLe(q + 1, q', d);
    }
  }

  /** The quotient of the magnitudes is no larger than the dividend's magnitude,
      and is Dafny's quotient when both operands are positive. */
  lemma MagnitudeQuotient(a: int, b: int)
    requires b != 0
    ensures 0 <= Abs(a) / Abs(b) <= Abs(a)
    ensures a >= 0 && b > 0 ==> Abs(a) / Abs(b) == a / b
  {
    DivLe(Abs(a), Abs(b));
  }

  /** C's `/` on `int`: the quotient truncated toward zero. */
  function CDiv(a: int, b: int): (q: int)
    requires b != 0
    ensures Abs(q) <= Abs(a)
    ensures a >= 0 && b > 0 ==> q == a / b
  {
    MagnitudeQuotient(a, b);
    var m := Abs(a) / Abs(b);
    if (a < 0) == (b < 0) then m else -m
  }

  /** The only `int` quotient that leaves `int`'s range is INT_MIN / -1. */
  lemma CDivInRange(a: int, b: int)
    requires b != 0 && InI32(a)
    requires !(a == I32_MIN && b == -1)
    ensures InI32(CDiv(a, b))
  {
    var m := Abs(a) / Abs(b);
    DivLe(Abs(a), Abs(b));
    if a == I32_MIN && b < 0 {
      DivMod(Abs(a), Abs(b));
      MulLe(2, Abs(b), m);
      assert m * 2 <= Abs(a);
    }
  }

  /** `(a + b-1) / b` on C `int`: the ceiling rule for the partition count.
      The requires clauses exclude exactly the undefined behaviour of the expression:
      a zero divisor, signed overflow of `a + b` or of `a + b - 1`, and INT_MIN / -1. */
  function DivideRoundUp(a: i32, b: i32): (q: i32)
    requires b != 0
    requires InI32(a + b) && InI32(a + b - 1)
    requires !(a + b - 1 == I32_MIN && b == -1)
    ensures a >= 0 && b > 0 ==> q * b >= a && (q - 1) * b < a
  {
    CDivInRange(a + b - 1, b);
    var q := CDiv(a + b - 1, b);
    if a >= 0 && b > 0 then
      DivMod(a + b - 1, b);
      assert (q - 1) * b == q * b - b;
      q
    else
      q
  }

  /** For a non-negative dividend and positive divisor the rounded-up quotient
      equals the exact quotient precisely when the divisor divides it. */
  lemma DivideRoundUpExact(a: i32, b: i32)
    requires a >= 0 && b > 0 && InI32(a + b)
    ensures DivideRoundUp(a, b) == a / b <==> a % b == 0
  {
    var f, r := a / b, a % b;
    DivMod(a, b);
    if r == 0 {
      DivUnique(a + b - 1, b, f, b - 1);
    } else {
      assert a + b - 1 == (f + 1) * b + (r - 1);
      DivUnique(a + b - 1, b, f + 1, r - 1);
    }
  }

  // ---------------------------------------------------------------------------
  // roundUp
  // ---------------------------------------------------------------------------

  /** `roundUp<T>(input, boundary)` on a non-negative integer type. */
  function RoundUp(input: nat, boundary: nat): (r: nat)
    requires boundary > 0
    ensures r % boundary == 0
    ensures input <= r < input + boundary
  {
    var q := (input + (boundary - 1)) / boundary;
    DivMod(input + (boundary - 1), boundary);
    DivUnique(q * boundary, boundary, q, 0);
    boundary * q
  }

  /** A multiple of the boundary is returned unchanged. */
  lemma RoundUpOfMultiple(input: nat, boundary: nat)
    requires boundary > 0 && input % boundary == 0
    ensures RoundUp(input, boundary) == input
  {
    var k := input / boundary;
    DivMod(input, boundary);
    DivUnique(input + (boundary - 1), boundary, k, boundary - 1);
  }

  /** Rounding up twice is rounding up once. */
  lemma RoundUpIdempotent(input: nat, boundary: nat)
    requires boundary > 0
    ensures RoundUp(RoundUp(input, boundary), boundary) == RoundUp(input, boundary)
  {
    RoundUpOfMultiple(RoundUp(input, boundary), boundary);
  }

  /** `roundUp<uint32_t>(input, boundary)`: the sum `input + (boundary - 1)` wraps
      modulo 2^32, so the result is `RoundUp` exactly when the sum fits, and 0
      (below the input) otherwise; e.g. `roundUp<uint32_t>(0xFFFFFFFF, 2) == 0`. */
  function RoundUpU32(input: u32, boundary: u32): (r: u32)
    requires boundary > 0
    ensures r % boundary == 0
    ensures input + boundary - 1 < U32_MODULUS ==> r == RoundUp(input, boundary)
    ensures input + boundary - 1 >= U32_MODULUS ==> r == 0
    ensures input <= r <==> input + boundary - 1 < U32_MODULUS
  {
    var sum := (input + (boundary - 1)) % U32_MODULUS;
    RoundUpU32Product(input, boundary, sum, sum / boundary);
    (boundary * (sum / boundary)) % U32_MODULUS
  }

  /** The arithmetic behind `RoundUpU32`: the product never wraps, and the
      wrapped sum is either the true sum or below the boundary. */
  lemma RoundUpU32Product(input: u32, boundary: u32, sum: nat, q: nat)
    requires boundary > 0 && sum == (input + (boundary - 1)) % U32_MODULUS && q == sum / boundary
    ensures (boundary * q) % U32_MODULUS == boundary * q && (boundary * q) % boundary == 0
    ensures input + boundary - 1 < U32_MODULUS ==> boundary * q == RoundUp(input, boundary)
    ensures input + boundary - 1 >= U32_MODULUS ==> q == 0
  {
    DivMod(sum, boundary);
    assert boundary * q <= sum;
    DivUnique(boundary * q, boundary, q, 0);
    DivUnique(boundary * q, U32_MODULUS, 0, boundary * q);
    if input + boundary - 1 >= U32_MODULUS {
      DivUnique(input + (boundary - 1), U32_MODULUS, 1, sum);
      DivUnique(sum, boundary, 0, sum);
    } else {
      DivUnique(input + (boundary - 1), U32_MODULUS, 0, sum);
    }
  }

  /** `roundUp(x, b) == b * divideRoundUp(x, b)` whenever both are defined. */
  lemma RoundUpIsDivideRoundUpTimesBoundary(x: i32, b: i32)
    requires x >= 0 && b > 0 && InI32(x + b)
    ensures RoundUp(x, b) == b * DivideRoundUp(x, b)
  {
  }
}
