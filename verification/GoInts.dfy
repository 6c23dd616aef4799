/** Go's integer division and its 32-bit conversions. */
module GoInts {
  import opened Sums

  /** `/` truncates towards zero. */
  function Quotient(a: int, b: int): int
    requires b > 0
  {
    if a >= 0 then a / b else -(-a / b)
  }

  lemma QuotientBounds(a: int, b: int)
    requires 0 <= a && 0 < b
    ensures 0 <= Quotient(a, b) && Quotient(a, b) * b <= a < Quotient(a, b) * b + b
  {
    assert a == b * (a / b) + a % b;
  }

  /** Of a negative number it drops the remainder, so the quotient is not below the exact one. */
  lemma QuotientTruncates(a: int, b: int)
    requires a <= 0 && 0 < b
    ensures Quotient(a, b) <= 0 && Quotient(a, b) * b - b < a <= Quotient(a, b) * b
  {
    assert -a == b * (-a / b) + -a % b;
  }

  lemma StepOver(x: int, y: int, b: int)
    requires 0 < b
    ensures x < y ==> x * b + b <= y * b
  {
    MulOrder(b, x + 1, y);
  }

  lemma QuotientMonotone(a: int, a': int, b: int)
    requires 0 <= a <= a' && 0 < b
    ensures Quotient(a, b) <= Quotient(a', b)
  {
    QuotientBounds(a, b);
    QuotientBounds(a', b);
    StepOver(Quotient(a', b), Quotient(a, b), b);
  }

  /** Dividing twice is dividing by the product, up to the same bounds. */
  lemma NestedQuotient(t: int, c: int, k: int)
    requires 0 <= t && 0 < c && 0 < k
    ensures var q := Quotient(Quotient(t, c), k); 0 <= q && q * k * c <= t < (q * k + k) * c
  {
    var inner := Quotient(t, c);
    var q := Quotient(inner, k);
    QuotientBounds(t, c);
    QuotientBounds(inner, k);
    MulOrder(c, q * k, inner);
    StepOver(inner, q * k + k, c);
  }

  /** A time.Duration counts nanoseconds. */
  const NS_PER_MS := 1_000_000

  const INT32_MIN := -0x8000_0000
  const INT32_MAX := 0x7fff_ffff

  lemma Int32Wraps(x: int)
    ensures (x - Int32(x)) % 0x1_0000_0000 == 0
  {
  }

  /** Conversion to int32 keeps the low 32 bits. */
  function Int32(x: int): (r: int)
    ensures INT32_MIN <= r <= INT32_MAX
    ensures INT32_MIN <= x <= INT32_MAX ==> r == x
  {
    (x + 0x8000_0000) % 0x1_0000_0000 - 0x8000_0000
  }
}
