/** C integer semantics that the model needs explicitly: 32-bit `int`,
    64-bit `long`, and `/` / `%` truncating toward zero (Dafny's own
    `/` and `%` are Euclidean). */
module CInt {

  const INT_MIN: int := -0x8000_0000
  const INT_MAX: int := 0x7fff_ffff
  const TWO_32: int := 0x1_0000_0000
  const TWO_64: int := 0x1_0000_0000_0000_0000

  predicate InInt32(x: int) {
    INT_MIN <= x <= INT_MAX
  }

  type int64 = x: int | -0x8000_0000_0000_0000 <= x < 0x8000_0000_0000_0000

  function Abs(x: int): nat {
    if x < 0 then -x else x
  }

  /** C's `a / b`: the quotient truncated toward zero. The remainder it
      leaves is smaller than the divisor and has the sign of the dividend. */
  function CDiv(a: int, b: int): (q: int)
    requires b != 0
    ensures Abs(a - q * b) < Abs(b)
    ensures a - q * b == 0 || (a < 0 <==> a - q * b < 0)
  {
    if a >= 0 && b > 0 then a / b
    else if a >= 0 then -(a / -b)
    else if b > 0 then -((-a) / b)
    else (-a) / (-b)
  }

  /** C's `a % b`. */
  function CRem(a: int, b: int): (r: int)
    requires b != 0
    ensures CDiv(a, b) * b + r == a
    ensures Abs(r) < Abs(b)
  {
    a - CDiv(a, b) * b
  }

  /** The truncated quotient is the only one whose remainder is smaller
      than the divisor and shares the dividend's sign. */
  lemma {:induction false} CDivUnique(a: int, b: int, q: int)
    requires b != 0
    requires Abs(a - q * b) < Abs(b)
    requires a - q * b == 0 || (a < 0 <==> a - q * b < 0)
    ensures q == CDiv(a, b)
  {
    var q0 := CDiv(a, b);
    var r, r0 := a - q * b, a - q0 * b;
    var d := q - q0;
    var m := d * b;
    SubMul(q, q0, b);
    // both remainders lie on the same side of zero and are smaller than |b|
    assert Abs(r0 - r) < Abs(b);
    if d > 0 {
      MulAtLeast(d, b);
    } else if d < 0 {
      MulAtLeast(-d, b);
    }
  }

  lemma SubMul(x: int, y: int, b: int)
    ensures (x - y) * b == x * b - y * b
  {
  }

  lemma MulAtLeast(k: int, b: int)
    requires k >= 1
    ensures Abs(k * b) >= Abs(b)
  {
    if b >= 0 {
      assert k * b == b + (k - 1) * b;
      assert (k - 1) * b >= 0;
    } else {
      assert k * b == b + (k - 1) * b;
      assert (k - 1) * b <= 0;
    }
  }

  /** On non-negative operands C's quotient is Dafny's. */
  lemma CDivNonNegative(a: int, b: int)
    requires a >= 0 && b > 0
    ensures CDiv(a, b) == a / b && CRem(a, b) == a % b
  {
  }

  /** Conversion of a wider integer to the 32-bit `int`: keep the low
      32 bits and read them as two's complement. */
  function ToInt32(x: int): (r: int)
    ensures InInt32(r)
    ensures (x - r) % TWO_32 == 0
    ensures InInt32(x) ==> r == x
  {
    var u := x % TWO_32;
    if u > INT_MAX then u - TWO_32 else u
  }

  /** Conversion of a signed `long` to an unsigned 64-bit value, as C does
      when a `long` meets a `size_t` operand. */
  function ToUnsigned64(x: int64): (u: nat)
    ensures u < TWO_64
    ensures x >= 0 ==> u == x
    ensures x < 0 ==> u == x + TWO_64
  {
    if x < 0 then x + TWO_64 else x
  }
}
