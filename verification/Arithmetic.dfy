/**
 Products, quotients and remainders by a number that is not a literal. They are
 defined by recursion, which keeps proofs about buffers within linear
 arithmetic; `ProductIs` and `QuotientIs` identify them with `*`, `/` and `%`.
 */
module Arithmetic {

  /** The divisors of the source: sample rates and channel counts. */
  type pos = n: nat | 0 < n witness 1

  function Product(n: nat, c: pos): nat {
    if n == 0 then 0 else Product(n - 1, c) + c
  }

  function Quotient(n: nat, c: pos): nat {
    if n < c then 0 else Quotient(n - c, c) + 1
  }

  function Remainder(n: nat, c: pos): nat {
    if n < c then n else Remainder(n - c, c)
  }

  lemma {:induction false} ProductIs(n: nat, c: pos)
    ensures Product(n, c) == n * c
  {
    if n > 0 {
      ProductIs(n - 1, c);
    }
  }

  lemma {:induction false} QuotientIs(n: nat, c: pos)
    ensures Quotient(n, c) == n / c && Remainder(n, c) == n % c
  {
    if n >= c {
      QuotientIs(n - c, c);
      assert n / c == (n - c) / c + 1 && n % c == (n - c) % c by {
        OneMore(n - c, c);
      }
    } else {
      assert n / c == 0 && n % c == n;
    }
  }

  lemma OneMore(n: nat, c: pos)
    ensures (n + c) / c == n / c + 1 && (n + c) % c == n % c
  {
    var d := (n + c) / c - (n / c + 1);
    assert d * c == n % c - (n + c) % c;
    Scaled(d, c);
  }

  lemma Scaled(d: int, c: int)
    requires c > 0
    ensures d >= 1 ==> d * c >= c
    ensures d <= -1 ==> d * c <= -c
  {
  }

  lemma {:induction false} WholeBlocks(n: nat, c: pos)
    ensures Remainder(Product(n, c), c) == 0
  {
    if n > 0 {
      WholeBlocks(n - 1, c);
    }
  }

  /** Whole blocks of `c` add to, and subtract from, whole blocks. */
  lemma {:induction false} BlocksAdd(a: nat, b: nat, c: pos)
    requires Remainder(a, c) == 0
    ensures Remainder(a + b, c) == Remainder(b, c)
    ensures Quotient(a + b, c) == Quotient(a, c) + Quotient(b, c)
    ensures Remainder(b, c) == 0 && b <= a ==> Remainder(a - b, c) == 0
    decreases a + b
  {
    if a >= c {
      BlocksAdd(a - c, b, c);
      if Remainder(b, c) == 0 && c <= b <= a {
        BlocksAdd(a - c, b - c, c);
      }
    }
  }

  lemma {:induction false} QuotientMonotone(a: nat, b: nat, c: pos)
    requires a <= b
    ensures Quotient(a, c) <= Quotient(b, c)
  {
    if a >= c {
      QuotientMonotone(a - c, b - c, c);
    }
  }

  /** Integer division loses less than one. */
  lemma QuotientFloors(a: nat, b: pos)
    ensures Quotient(a, b) as real <= a as real / b as real < Quotient(a, b) as real + 1.0
  {
    QuotientIs(a, b);
    var q, r := a / b, a % b;
    assert a as real == q as real * b as real + r as real;
    RealQuotient(a as real, b as real, q as real, r as real);
  }

  lemma RealQuotient(a: real, b: real, q: real, r: real)
    requires b > 0.0 && a == q * b + r && 0.0 <= r < b
    ensures q <= a / b < q + 1.0
  {
    var d := a / b - q;
    assert d * b == a / b * b - q * b == r;
    RealScaled(d, b);
    RealScaled(d - 1.0, b);
    assert (d - 1.0) * b == d * b - b;
  }

  lemma RealScaled(d: real, b: real)
    requires b > 0.0
    ensures d >= 0.0 ==> d * b >= 0.0
    ensures d < 0.0 ==> d * b < 0.0
  {
  }
}
