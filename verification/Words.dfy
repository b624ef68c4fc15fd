/** Unsigned 32-bit words, with the wrap-around of the machine written out. */
module Words {
  const U32_MAX := 0xFFFF_FFFF
  const U32_SPAN := 0x1_0000_0000

  type U32 = x: int | 0 <= x <= U32_MAX

  datatype Option<+T> = None | Some(value: T)

  /** The decimal digits of a number. */
  function Decimal(n: nat): string {
    if n < 10 then ["0123456789"[n]] else Decimal(n / 10) + ["0123456789"[n % 10]]
  }

  /** Addition as the machine performs it: the carry out of bit 31 is lost. */
  function WrappingAdd(a: U32, b: U32): (r: U32)
    ensures r == if a + b <= U32_MAX then a + b else a + b - U32_SPAN
  {
    (a + b) % U32_SPAN
  }

  function WrappingMul(a: U32, b: U32): U32 {
    (a * b) % U32_SPAN
  }

  function Min(a: int, b: int): int {
    if a <= b then a else b
  }

  function Max(a: int, b: int): int {
    if a <= b then b else a
  }

  /** Detects the carry by comparing the wrapped sum with an operand. */
  function SaturatingAdd(a: U32, b: U32): (r: U32)
    ensures r == Min(a + b, U32_MAX)
  {
    var sum := WrappingAdd(a, b);
    if sum < a then U32_MAX else sum
  }

  function SaturatingSub(a: U32, b: U32): (r: U32)
    ensures r == Max(0, a - b)
  {
    if b > a then 0 else a - b
  }

  /** The wrap test `sum < a` detects exactly the sums that do not fit. */
  function CheckedAdd(a: U32, b: U32): (r: Option<U32>)
    ensures r == if a + b <= U32_MAX then Some(a + b) else None
  {
    var sum := WrappingAdd(a, b);
    if sum < a then None else Some(sum)
  }

  /** The wrap test `prod / b != a` detects exactly the products that do not fit. */
  function CheckedMul(a: U32, b: U32): (r: Option<U32>)
    ensures r == if a * b <= U32_MAX then Some(a * b) else None
  {
    if a == 0 || b == 0 then Some(0)
    else
      var prod := WrappingMul(a, b);
      WrappedProductTest(a, b);
      if prod / b != a then None else Some(prod)
  }

  /** A wrapped product divides back to the other factor only when it did not wrap. */
  lemma WrappedProductTest(a: U32, b: U32)
    requires b > 0
    ensures WrappingMul(a, b) / b == a <==> a * b <= U32_MAX
  {
    var w, c := WrappingMul(a, b), (a * b) / U32_SPAN;
    assert a * b == U32_SPAN * c + w;
    QuotientAfterCarry(a, b, w, c);
  }

  /** Losing c > 0 carries removes at least 2^32 > b, so the quotient falls short. */
  lemma QuotientAfterCarry(a: int, b: U32, w: U32, c: int)
    requires a >= 0 && b > 0 && a * b == U32_SPAN * c + w
    ensures w / b == a <==> c == 0
    ensures c == 0 <==> a * b <= U32_MAX
  {
    assert a * b >= 0;
    var d, m := w / b, w % b;
    assert w == b * d + m;
    if d == a {
      assert b * d == a * b;
    }
    if c == 0 {
      SameQuotient(a, d, b, m);
    }
  }

  lemma SameQuotient(a: int, d: int, b: int, m: int)
    requires 0 <= m < b && a * b == b * d + m
    ensures a == d
  {
    assert b * (a - d) == m;
    var k := a - d;
    assert k >= 1 ==> b * k >= b;
    assert k <= -1 ==> b * k <= -b;
  }
}
