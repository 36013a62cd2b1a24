/**
  Go's int64 arithmetic on mathematical integers: wrap-around, truncating
  division, and the two overflow-reporting helpers of the token bucket.
 */
module Int64Math {
  import opened Models

  const TWO_63: int := 0x8000_0000_0000_0000
  const TWO_64: int := 0x1_0000_0000_0000_0000

  /** Two's-complement wrap-around to 64 bits. */
  function Wrap(x: int): Int64 {
    (x + TWO_63) % TWO_64 - TWO_63
  }

  lemma WrapFits(x: int)
    requires INT64_MIN <= x <= INT64_MAX
    ensures Wrap(x) == x
  {
  }

  /** Division rounding toward zero. */
  function Quot(a: int, b: int): int
    requires b != 0
  {
    if (a >= 0) == (b > 0) then Abs(a) / Abs(b) else -(Abs(a) / Abs(b))
  }

  /** The remainder that goes with `Quot`: it takes the sign of the dividend. */
  function Rem(a: int, b: int): int
    requires b != 0
  {
    a - Quot(a, b) * b
  }

  function Abs(x: int): nat { if x < 0 then -x else x }

  /** Multiply, reporting overflow as the second component. */
  function CheckedMul(a: Int64, b: Int64): (Int64, bool) {
    if a == 0 || b == 0 then (0, false)
    else
      var c := Wrap(a * b);
      if Wrap(Quot(c, b)) != a then (0, true) else (c, false)
  }

  /** Add, reporting overflow as the second component. */
  function CheckedAdd(a: Int64, b: Int64): (Int64, bool) {
    var c := Wrap(a + b);
    if c < a then (0, true) else (c, false)
  }

  lemma DivOfProduct(a: int, b: int)
    requires b > 0
    ensures (a * b) / b == a
  {
    DivUnique(a * b, b, a, 0);
  }

  /** Quotient and remainder are determined by n == q * d + r with 0 <= r < d. */
  lemma DivUnique(n: int, d: int, q: int, r: int)
    requires d > 0 && n == q * d + r && 0 <= r < d
    ensures n / d == q && n % d == r
  {
    var k := n / d;
    assert n == k * d + n % d;
    if k > q {
      MulMonotone(q + 1, k, d);
    } else if k < q {
      MulMonotone(k + 1, q, d);
    }
  }

  lemma MulMonotone(a: int, b: int, c: int)
    requires a <= b && c >= 0
    ensures a * c <= b * c
  {
    assert (b - a) * c >= 0;
  }

  /** On non-negative operands the multiplication's wrap detection is exact. */
  lemma CheckedMulExact(a: Int64, b: Int64)
    requires a >= 0 && b >= 0
    ensures CheckedMul(a, b) == if a * b <= INT64_MAX then (a * b, false) else (0, true)
  {
    if a == 0 || b == 0 {
      assert a * b == 0;
    } else if a * b <= INT64_MAX {
      MulMonotone(1, a, b);
      WrapFits(a * b);
      DivOfProduct(a, b);
      WrapFits(a);
    } else {
      var c := Wrap(a * b);
      if c >= 0 {
        // A quotient of a would put the wrapped product at a * b or above.
        assert Quot(c, b) == c / b;
        assert c == (c / b) * b + c % b;
        assert c < a * b;
        assert 0 <= c / b <= c by { QuotBound(c, b); }
        WrapFits(c / b);
        assert c / b == a ==> c >= a * b;
      } else {
        var q := Quot(c, b);
        QuotBound(-c, b);
        assert -TWO_63 <= q <= 0;
        WrapFits(q);
      }
    }
  }

  lemma QuotBound(n: int, d: int)
    requires n >= 0 && d > 0
    ensures 0 <= n / d <= n
  {
    DivAtLeast(n, d, 0);
    MulMonotone(1, d, n + 1);
    DivBelow(n, d, n + 1);
  }

  /** On non-negative operands truncation is floor. */
  lemma QuotNonNegative(n: int, d: int)
    requires n >= 0 && d > 0
    ensures Quot(n, d) == n / d && Rem(n, d) == n % d
  {
  }

  /** On non-negative operands the addition's wrap detection is exact. */
  lemma CheckedAddExact(a: Int64, b: Int64)
    requires a >= 0 && b >= 0
    ensures CheckedAdd(a, b) == if a + b <= INT64_MAX then (a + b, false) else (0, true)
  {
    if a + b <= INT64_MAX { WrapFits(a + b); }
  }

  lemma DivAtLeast(n: int, d: int, k: int)
    requires d > 0 && n >= k * d
    ensures n / d >= k
  {
    assert n == (n / d) * d + n % d;
    if n / d < k { MulMonotone(n / d, k - 1, d); }
  }

  lemma DivBelow(n: int, d: int, k: int)
    requires d > 0 && n < k * d
    ensures n / d < k
  {
    assert n == (n / d) * d + n % d;
    if n / d >= k { MulMonotone(k, n / d, d); }
  }
}
