/**
 * The unsigned fixed-point type with 112 integer and 16 fractional bits that the decimal
 * converter computes in.  A value is its 128-bit pattern; conversions into the type wrap,
 * as they do in a release build of the runtime.
 */
module FixedPoint {
  import opened Prelude

  type Bits = u128

  function FromNum(n: nat): Bits {
    (n * TWO_16) % TWO_128
  }

  function ToNum(a: Bits): u128 {
    a / TWO_16
  }

  function CheckedDiv(a: Bits, b: Bits): Option<Bits> {
    if b == 0 then None
    else
      var q := a * TWO_16 / b;
      if q < TWO_128 then Some(q) else None
  }

  function SaturatingMul(a: Bits, b: Bits): Bits {
    Min(a * b / TWO_16, TWO_128 - 1)
  }

  lemma DivDiv(x: nat, a: nat, b: nat)
    requires a > 0 && b > 0
    ensures x / a / b == x / (a * b)
  {
    var n, m := x / a, x % a;
    var q, r := n / b, n % b;
    assert x == a * n + m && n == b * q + r;
    TwoSteps(x, a, b, n, m, q, r);
    QuotientUnique(x, a * b, q, a * r + m);
  }

  /** Two divisions with remainder make one. */
  lemma TwoSteps(x: nat, a: nat, b: nat, n: nat, m: nat, q: nat, r: nat)
    requires x == a * n + m && m < a && n == b * q + r && r < b
    ensures x == (a * b) * q + (a * r + m) && a * r + m < a * b
  {
    Distribute(a, b * q, r);
    Associate(a, b, q);
    MulMonotone(a, r + 1, b);
    Distribute(a, r, 1);
  }

  lemma Distribute(a: int, b: int, c: int)
    ensures a * (b + c) == a * b + a * c
  {}

  lemma Associate(a: int, b: int, c: int)
    ensures a * (b * c) == (a * b) * c
  {}

  lemma MulMonotone(a: nat, x: int, y: int)
    requires x <= y
    ensures a * x <= a * y && x * a <= y * a
  {}

  lemma QuotientUnique(x: nat, d: nat, q: nat, r: nat)
    requires d > 0 && r < d && x == d * q + r
    ensures x / d == q
  {
    var p := x / d;
    assert x == d * p + x % d;
    if p < q {
      MulMonotone(d, p + 1, q);
    } else if q < p {
      MulMonotone(d, q + 1, p);
    }
  }

  /** A common factor cancels. */
  lemma CancelFactor(x: nat, d: nat, c: nat)
    requires d > 0 && c > 0
    ensures d * c > 0 && (x * c) / (d * c) == x / d
  {
    var q, r := x / d, x % d;
    assert x == d * q + r;
    ScaleDivision(x, d, c, q, r);
    QuotientUnique(x * c, d * c, q, r * c);
  }

  lemma ScaleDivision(x: nat, d: nat, c: nat, q: nat, r: nat)
    requires x == d * q + r && r < d && c > 0
    ensures x * c == (d * c) * q + r * c && r * c < d * c
  {
    Distribute(c, d * q, r);
    Associate(c, d, q);
    MulMonotone(c, r + 1, d);
    Distribute(c, r, 1);
  }

  lemma WrapIntegerPart(n: nat)
    ensures FromNum(n) == (n % TWO_112) * TWO_16
  {
    assert TWO_128 == TWO_112 * TWO_16;
  }

  /** Division in the fixed-point type is integer division of the wrapped operands. */
  lemma DivisionIsFloor(x: nat, d: nat)
    requires d % TWO_112 > 0
    ensures CheckedDiv(FromNum(x), FromNum(d)).Some?
    ensures ToNum(CheckedDiv(FromNum(x), FromNum(d)).value) == (x % TWO_112) / (d % TWO_112)
  {
    WrapIntegerPart(x);
    WrapIntegerPart(d);
    var a, b := x % TWO_112, d % TWO_112;
    var num := a * TWO_16;
    CancelFactor(num, b, TWO_16);
    assert FromNum(x) * TWO_16 / FromNum(d) == num / b;
    assert num / b <= num by { MulMonotone(num, 1, b); QuotientAtMost(num, b); }
    CommuteDivisions(num, b);
  }

  lemma QuotientAtMost(x: nat, d: nat)
    requires d > 0
    ensures x / d <= x
  {
    var q := x / d;
    assert x == d * q + x % d;
    MulMonotone(q, 1, d);
  }

  lemma CommuteDivisions(x: nat, d: nat)
    requires d > 0 && x % TWO_16 == 0
    ensures x / d / TWO_16 == (x / TWO_16) / d
  {
    DivDiv(x, d, TWO_16);
    DivDiv(x, TWO_16, d);
    assert d * TWO_16 == TWO_16 * d;
  }

  /** Multiplication of integers saturates at the largest representable integer part. */
  lemma MultiplicationIsCapped(x: nat, d: nat)
    requires x < TWO_112
    ensures ToNum(SaturatingMul(FromNum(x), FromNum(d))) == Min(x * (d % TWO_112), TWO_112 - 1)
  {
    WrapIntegerPart(x);
    WrapIntegerPart(d);
    var b := d % TWO_112;
    calc {
      FromNum(x) * FromNum(d);
      (x * TWO_16) * (b * TWO_16);
      { Rearrange(x, b); }
      (x * b * TWO_16) * TWO_16;
    }
    assert FromNum(x) * FromNum(d) / TWO_16 == x * b * TWO_16;
    if x * b < TWO_112 {
      assert x * b * TWO_16 < TWO_128;
    } else {
      assert x * b * TWO_16 >= TWO_128;
    }
  }

  lemma Rearrange(x: nat, b: nat)
    ensures (x * TWO_16) * (b * TWO_16) == (x * b * TWO_16) * TWO_16
  {
    calc {
      (x * TWO_16) * (b * TWO_16);
      { Associate(x * TWO_16, b, TWO_16); }
      (x * TWO_16 * b) * TWO_16;
      { Associate(x, TWO_16, b); Associate(x, b, TWO_16); assert TWO_16 * b == b * TWO_16; }
      (x * b * TWO_16) * TWO_16;
    }
  }
}
