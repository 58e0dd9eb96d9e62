/**
 * Fixed-width integer arithmetic of the JVM, written out over Dafny's unbounded `int`:
 * Kotlin `Int` is 32-bit and `Long` is 64-bit two's complement, both wrap on overflow,
 * `Long.toInt()` keeps the low 32 bits, and integer division truncates toward zero.
 */
module JvmInt {
  const TWO_32: int := 0x1_0000_0000
  const TWO_64: int := 0x1_0000_0000_0000_0000

  predicate IsInt(x: int) { -0x8000_0000 <= x < 0x8000_0000 }
  predicate IsLong(x: int) { -0x8000_0000_0000_0000 <= x < 0x8000_0000_0000_0000 }

  /** Values of a Kotlin `Int` and of a Kotlin `Long`. */
  type int32 = x: int | -0x8000_0000 <= x < 0x8000_0000
  type int64 = x: int | -0x8000_0000_0000_0000 <= x < 0x8000_0000_0000_0000

  /** `Long.toInt()`: keeps the low 32 bits, read as a signed value. */
  function ToInt(x: int): (r: int32)
    ensures (r - x) % TWO_32 == 0
    ensures IsInt(x) ==> r == x
  {
    (x + 0x8000_0000) % TWO_32 - 0x8000_0000
  }

  /** The `Long` an overflowing 64-bit multiplication or addition leaves behind. */
  function ToLong(x: int): (r: int64)
    ensures (r - x) % TWO_64 == 0
    ensures IsLong(x) ==> r == x
  {
    (x + 0x8000_0000_0000_0000) % TWO_64 - 0x8000_0000_0000_0000
  }

  /**
   * JVM integer division `a / b` for a positive divisor: the quotient truncated toward zero,
   * which is to say the remainder `a - q * b` has the sign of the dividend and is smaller
   * than the divisor.
   */
  function TruncDiv(a: int, b: int): (q: int)
    requires b > 0
    ensures a >= 0 ==> 0 <= a - q * b < b
    ensures a < 0 ==> -b < a - q * b <= 0
  {
    if a >= 0 then a / b else -((-a) / b)
  }

  /** The remainder rule determines the quotient: no other value has a remainder of the dividend's sign below the divisor. */
  lemma TruncDivUnique(a: int, b: int, q: int)
    requires b > 0
    requires a >= 0 ==> 0 <= a - q * b < b
    requires a < 0 ==> -b < a - q * b <= 0
    ensures q == TruncDiv(a, b)
  {
    var d := q - TruncDiv(a, b);
    assert d * b == q * b - TruncDiv(a, b) * b;
    SmallMultiple(d, b);
  }

  lemma SmallMultiple(d: int, b: int)
    requires b > 0 && -b < d * b < b
    ensures d == 0
  {
  }
}
