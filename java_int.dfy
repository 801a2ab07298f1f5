/** Java's fixed-width integer arithmetic on top of Dafny's unbounded `int`:
    `Integer` is 32 bits and `Long` is 64 bits, both two's complement;
    `+` and the narrowing cast `(int)` wrap around, and `/` rounds toward zero. */
module JavaInt {

  const INT_MIN: int := -0x8000_0000
  const INT_MAX: int := 0x7FFF_FFFF
  const LONG_MIN: int := -0x8000_0000_0000_0000
  const LONG_MAX: int := 0x7FFF_FFFF_FFFF_FFFF

  const INT_MODULUS: int := 0x1_0000_0000
  const LONG_MODULUS: int := 0x1_0000_0000_0000_0000

  /** The values of a Java `int` / `Integer`. */
  type Int32 = x: int | INT_MIN <= x <= INT_MAX

  /** The values of a Java `long` / `Long`. */
  type Int64 = x: int | LONG_MIN <= x <= LONG_MAX

  /** The low 32 bits of `x`, read as a signed value: the `(int)` cast, and
      the result of `int` addition. */
  function ToInt32(x: int): (r: Int32)
    ensures INT_MIN <= x <= INT_MAX ==> r == x
    ensures (x - r) % INT_MODULUS == 0
  {
    (x - INT_MIN) % INT_MODULUS + INT_MIN
  }

  /** The low 64 bits of `x`, read as a signed value: the result of `long`
      addition. */
  function ToInt64(x: int): (r: Int64)
    ensures LONG_MIN <= x <= LONG_MAX ==> r == x
    ensures (x - r) % LONG_MODULUS == 0
  {
    (x - LONG_MIN) % LONG_MODULUS + LONG_MIN
  }

  /** Java's `a + b` on two `long` values. */
  function AddLong(a: Int64, b: Int64): (r: Int64)
    ensures LONG_MIN <= a + b <= LONG_MAX ==> r == a + b
    ensures (a + b - r) % LONG_MODULUS == 0
  {
    ToInt64(a + b)
  }

  /** Java's `a + b` on two `int` values. */
  function AddInt(a: Int32, b: Int32): (r: Int32)
    ensures INT_MIN <= a + b <= INT_MAX ==> r == a + b
    ensures (a + b - r) % INT_MODULUS == 0
  {
    ToInt32(a + b)
  }

  /** Java's integer division `a / b` for a positive divisor: the quotient
      rounded toward zero, so the remainder takes the sign of `a`. */
  function Quot(a: int, b: int): (q: int)
    requires b > 0
    ensures a >= 0 ==> 0 <= a - q * b < b
    ensures a < 0 ==> -b < a - q * b <= 0
  {
    if a >= 0 then a / b else -((-a) / b)
  }

  /** Two values that agree modulo 2^64 wrap to the same `long`. */
  lemma {:induction false} ToInt64Congruent(x: int, y: int)
    requires (x - y) % LONG_MODULUS == 0
    ensures ToInt64(x) == ToInt64(y)
  {
    var j := (x - y) / LONG_MODULUS;
    assert x - LONG_MIN == (y - LONG_MIN) + j * LONG_MODULUS;
    ModShift(y - LONG_MIN, j);
  }

  /** Adding a multiple of 2^64 does not change the remainder modulo 2^64. */
  lemma {:induction false} ModShift(a: int, j: int)
    ensures (a + j * LONG_MODULUS) % LONG_MODULUS == a % LONG_MODULUS
    decreases if j < 0 then -j else j
  {
    if j > 0 {
      ModShift(a, j - 1);
      assert a + j * LONG_MODULUS == (a + (j - 1) * LONG_MODULUS) + LONG_MODULUS;
    } else if j < 0 {
      ModShift(a, j + 1);
      assert a + j * LONG_MODULUS == (a + (j + 1) * LONG_MODULUS) - LONG_MODULUS;
    }
  }

  /** Wrapping after every `long` addition is the same as wrapping once at
      the end: two's-complement addition is associative. */
  lemma {:induction false} AddLongAssociative(a: Int64, b: Int64, c: Int64)
    ensures AddLong(AddLong(a, b), c) == AddLong(a, AddLong(b, c))
  {
    ToInt64Congruent(a + b + c, AddLong(a, b) + c);
    ToInt64Congruent(a + b + c, a + AddLong(b, c));
  }
}
