/** The few facts about products and quotients the metering proofs rest on. */
module Arithmetic {
  lemma MulNonNegative(a: int, b: int)
    requires a >= 0 && b >= 0
    ensures a * b >= 0
  {
  }

  lemma MulMonotone(a: int, b: int, c: int)
    requires a <= b && c >= 0
    ensures a * c <= b * c
  {
    MulNonNegative(b - a, c);
    assert (b - a) * c == b * c - a * c;
  }

  /** The product of naturals, which is one. */
  function Product(a: nat, b: nat): (p: nat)
  {
    MulNonNegative(a, b);
    a * b
  }

  /** The quotient rounded down. */
  function Quotient(n: nat, d: nat): (q: nat)
    requires d > 0
    ensures q <= n
  {
    QuotientBounds(n, d);
    n / d
  }

  lemma QuotientBounds(n: nat, d: nat)
    requires d > 0
    ensures 0 <= n / d <= n
    ensures d * (n / d) <= n < d * (n / d) + d
  {
    assert n == d * (n / d) + n % d;
    assert n / d >= 0;
    MulMonotone(1, d, n / d);
  }

  lemma QuotientUnique(n: nat, d: nat, q: int)
    requires d > 0 && d * q <= n < d * q + d
    ensures Quotient(n, d) == q
  {
    var p := Quotient(n, d);
    QuotientBounds(n, d);
    assert (p + 1) * d == d * p + d;
    assert (q + 1) * d == d * q + d;
    if p < q {
      MulMonotone(p + 1, q, d);
    } else if q < p {
      MulMonotone(q + 1, p, d);
    }
  }

  lemma DivisionMonotone(a: int, b: int, d: int)
    requires a <= b && d > 0
    ensures a / d <= b / d
  {
    assert a == d * (a / d) + a % d;
    assert b == d * (b / d) + b % d;
    assert (b / d + 1) * d == d * (b / d) + d;
    if b / d < a / d {
      MulMonotone(b / d + 1, a / d, d);
    }
  }

  /** Rounding down twice is rounding down once by the product. */
  lemma NestedQuotient(n: nat, a: nat, b: nat)
    requires a > 0 && b > 0
    ensures Product(a, b) > 0
    ensures Quotient(Quotient(n, a), b) == Quotient(n, Product(a, b))
  {
    var m := Quotient(n, a);
    var q := Quotient(m, b);
    QuotientBounds(n, a);
    QuotientBounds(m, b);
    MulMonotone(1, a, b);
    MulMonotone(b * q, m, a);
    MulMonotone(m + 1, b * q + b, a);
    Rearrange(a, b, q);
    QuotientUnique(n, Product(a, b), q);
  }

  lemma Rearrange(a: int, b: int, q: int)
    ensures (b * q) * a == (a * b) * q
    ensures (b * q + b) * a == (a * b) * q + a * b
  {
  }

  /** A real number n times. */
  ghost function Scale(x: real, n: nat): real {
    x * n as real
  }

  lemma ScalePositive(x: real, n: nat)
    requires n > 0 && x > 0.0
    ensures Scale(x, n) > 0.0
  {
  }

  lemma ScaleDifference(x: real, y: real, n: nat)
    ensures Scale(x - y, n) == Scale(x, n) - Scale(y, n)
  {
  }

  lemma ScaleOrder(x: real, y: real, n: nat)
    requires n > 0
    ensures Scale(x, n) <= Scale(y, n) ==> x <= y
    ensures Scale(x, n) < Scale(y, n) ==> x < y
  {
    ScaleDifference(x, y, n);
    if x > y {
      ScalePositive(x - y, n);
    }
  }

  lemma ScaleWhole(m: nat, n: nat)
    ensures Scale(m as real, n) == Product(m, n) as real
  {
  }

  lemma ScaleTwice(x: real, m: nat, n: nat)
    ensures Scale(Scale(x, m), n) == Scale(x, Product(m, n)) == Scale(Scale(x, n), m)
  {
    assert (x * m as real) * n as real == x * (m as real * n as real);
    assert m as real * n as real == Product(m, n) as real;
  }

  lemma ScaleSum(x: real, m: nat, n: nat)
    ensures Scale(x, m) + Scale(x, n) == Scale(x, m + n)
    ensures x >= 0.0 ==> Scale(x, n) >= 0.0
  {
  }
}
