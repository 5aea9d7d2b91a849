/**
 * Java's fixed-width integer operators, modelled on Dafny's unbounded `int`.
 *
 * A Java `int` or `long` is a two's complement bit pattern of width 32 or 64.
 * Dafny's `/` and `%` are Euclidean, so for an `int` x (negative or not)
 * `x % 2` is its lowest two's complement bit and `x / 2` is its arithmetic shift
 * right by one.  On top of that we define bitwise OR of the low `w` bits, the
 * left shift of a `w`-bit value, and the signed reading of a `w`-bit pattern.
 */
module JavaBits {

  /** Width of a Java `int`. */
  const INT: nat := 32
  /** Width of a Java `long`. */
  const LONG: nat := 64

  function Pow2(k: nat): (r: int)
    ensures r >= 1
  {
    if k == 0 then 1 else 2 * Pow2(k - 1)
  }

  lemma {:induction false} Pow2Add(a: nat, b: nat)
    ensures Pow2(a + b) == Pow2(a) * Pow2(b)
  {
    if a > 0 {
      Pow2Add(a - 1, b);
      assert Pow2(a + b) == 2 * Pow2(a - 1 + b);
    }
  }

  /** The powers of two the ID layout and the machine id use. */
  lemma Pow2Values()
    ensures Pow2(8) == 0x100 && Pow2(16) == 0x1_0000 && Pow2(22) == 0x40_0000
    ensures Pow2(31) == 0x8000_0000 && Pow2(32) == 0x1_0000_0000
    ensures Pow2(63) == 0x8000_0000_0000_0000 && Pow2(64) == 0x1_0000_0000_0000_0000
  {
    assert Pow2(1) == 2 && Pow2(2) == 4;
    Pow2Add(2, 2); Pow2Add(4, 4); Pow2Add(8, 8); Pow2Add(16, 16); Pow2Add(32, 32);
    Pow2Add(16, 4); Pow2Add(20, 2);
    Pow2Add(2, 1); Pow2Add(4, 3); Pow2Add(8, 7); Pow2Add(16, 15); Pow2Add(32, 31);
  }

  /** The low `n` bits of the two's complement OR of `a` and `b`, read as an unsigned number. */
  function Or(a: int, b: int, n: nat): (r: int)
    ensures 0 <= r < Pow2(n)
    decreases n
  {
    if n == 0 then 0
    else (if a % 2 == 1 || b % 2 == 1 then 1 else 0) + 2 * Or(a / 2, b / 2, n - 1)
  }

  lemma {:induction false} OrZero(a: int, n: nat)
    requires 0 <= a < Pow2(n)
    ensures Or(a, 0, n) == a
  {
    if n > 0 {
      OrZero(a / 2, n - 1);
    }
  }

  /** OR of a multiple of 2^k with a number below 2^k is their sum: the bits do not meet. */
  lemma {:induction false} OrDisjoint(c: int, b: int, n: nat, k: nat)
    requires k <= n
    requires 0 <= c * Pow2(k) < Pow2(n)
    requires 0 <= b < Pow2(k)
    ensures Or(c * Pow2(k), b, n) == c * Pow2(k) + b
  {
    if k == 0 {
      OrZero(c * Pow2(k), n);
    } else {
      var x := c * Pow2(k - 1);
      assert c * Pow2(k) == 2 * x;
      OrDisjoint(c, b / 2, n - 1, k - 1);
    }
  }

  /** OR with a number below 2^k whose bits are already set in x changes nothing. */
  lemma {:induction false} OrAlreadySet(c: int, b: int, n: nat, k: nat)
    requires k <= n
    requires 0 <= c * Pow2(k) && c * Pow2(k) + b < Pow2(n)
    requires 0 <= b < Pow2(k)
    ensures Or(c * Pow2(k) + b, b, n) == c * Pow2(k) + b
  {
    if k == 0 {
      OrZero(c * Pow2(k) + b, n);
    } else {
      var x := c * Pow2(k - 1);
      assert c * Pow2(k) == 2 * x;
      var y := 2 * x + b;
      assert y % 2 == b % 2 && y / 2 == x + b / 2;
      OrAlreadySet(c, b / 2, n - 1, k - 1);
    }
  }

  /** The signed (two's complement) value of the `w`-bit pattern `u`. */
  function Signed(u: int, w: nat): (r: int)
    requires 1 <= w && 0 <= u < Pow2(w)
    ensures -Pow2(w - 1) <= r < Pow2(w - 1)
    ensures u < Pow2(w - 1) ==> r == u
  {
    if u < Pow2(w - 1) then u else u - Pow2(w)
  }

  /** Java's `a | b` on values of width `w`: a `w`-bit two's complement value. */
  function BitOr(a: int, b: int, w: nat): int
    requires 1 <= w
  {
    Signed(Or(a, b, w), w)
  }

  /** x * 2^k, by doubling. */
  function ShiftLeft(x: int, k: nat): int
  {
    if k == 0 then x else 2 * ShiftLeft(x, k - 1)
  }

  lemma {:induction false} ShiftLeftValue(x: int, k: nat)
    ensures ShiftLeft(x, k) == x * Pow2(k)
  {
    if k > 0 {
      ShiftLeftValue(x, k - 1);
    }
  }

  /** The low `n` bits of the two's complement `x`, read as an unsigned number. */
  function Low(x: int, n: nat): (r: int)
    ensures 0 <= r < Pow2(n)
    decreases n
  {
    if n == 0 then 0 else x % 2 + 2 * Low(x / 2, n - 1)
  }

  lemma {:induction false} LowSmall(x: int, n: nat)
    requires 0 <= x < Pow2(n)
    ensures Low(x, n) == x
  {
    if n > 0 {
      LowSmall(x / 2, n - 1);
    }
  }

  /** Java's `x << k` on a value of width `w` (the shift count is below the width). */
  function Shl(x: int, k: nat, w: nat): int
    requires k < w
  {
    Signed(Low(ShiftLeft(x, k), w), w)
  }

  /** A shift that pushes no bit into or past the sign bit multiplies by 2^k. */
  lemma ShlExact(x: int, k: nat, w: nat)
    requires k < w
    requires 0 <= x * Pow2(k) < Pow2(w - 1)
    ensures Shl(x, k, w) == x * Pow2(k)
  {
    assert Pow2(w) == 2 * Pow2(w - 1);
    ShiftLeftValue(x, k);
    LowSmall(x * Pow2(k), w);
  }

  /** OR of non-negative fields that occupy disjoint bit ranges below the sign bit is their sum. */
  lemma BitOrDisjoint(c: int, b: int, k: nat, w: nat)
    requires k < w
    requires 0 <= c * Pow2(k) && c * Pow2(k) + b < Pow2(w - 1)
    requires 0 <= b < Pow2(k)
    ensures BitOr(c * Pow2(k), b, w) == c * Pow2(k) + b
  {
    assert Pow2(w) == 2 * Pow2(w - 1);
    OrDisjoint(c, b, w, k);
  }

  /** OR with a non-negative field whose bits are already set below the sign bit changes nothing. */
  lemma BitOrAlreadySet(c: int, b: int, k: nat, w: nat)
    requires k < w
    requires 0 <= c * Pow2(k) && c * Pow2(k) + b < Pow2(w - 1)
    requires 0 <= b < Pow2(k)
    ensures BitOr(c * Pow2(k) + b, b, w) == c * Pow2(k) + b
  {
    assert Pow2(w) == 2 * Pow2(w - 1);
    OrAlreadySet(c, b, w, k);
  }
}
