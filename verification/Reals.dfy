/** Exact arithmetic shared by the numeric cores: squares, quotients, order and truncation. Each product is
    isolated in a lemma of its own. */
module Reals {
  function Square(x: real): real {
    x * x
  }

  function Abs(x: real): real {
    if x < 0.0 then -x else x
  }

  function Sum(a: seq<real>): real {
    if a == [] then 0.0 else a[0] + Sum(a[1..])
  }

  lemma {:induction false} SumSnoc(a: seq<real>, x: real)
    ensures Sum(a + [x]) == Sum(a) + x
  {
    if a == [] {
      assert [] + [x] == [x] && [x][1..] == [];
    } else {
      assert (a + [x])[1..] == a[1..] + [x];
      SumSnoc(a[1..], x);
    }
  }

  lemma Distribute(a: real, b: real, c: real)
    ensures a * (b + c) == a * b + a * c
  {
  }

  lemma OneMore(n: real, x: real)
    ensures (n + 1.0) * x == n * x + x
  {
  }

  lemma Quotient(s: real, n: real)
    requires n > 0.0
    ensures n * (s / n) == s
  {
  }

  lemma SameFactor(n: real, a: real, b: real)
    requires n > 0.0 && n * a == n * b
    ensures a == b
  {
  }

  lemma SameFactorOnly(c: real, a: real, b: real)
    requires c > 0.0 && a != b
    ensures c * a != c * b
  {
    if c * a == c * b {
      SameFactor(c, a, b);
    }
  }

  lemma Monotone(n: real, a: real, b: real)
    requires n > 0.0 && a <= b
    ensures n * a <= n * b
  {
  }

  lemma ScaleOrder(c: real, a: real, b: real)
    requires c > 0.0
    ensures a > b <==> c * a > c * b
  {
    if a > b {
      Monotone(c, b, a);
      SameFactorOnly(c, a, b);
    } else {
      Monotone(c, a, b);
    }
  }

  lemma DifferenceOfSquares(a: real, b: real, sum: real, difference: real)
    requires sum == a + b > 0.0 && difference == a - b
    ensures Square(a) > Square(b) <==> difference > 0.0
  {
    assert Square(a) - Square(b) == sum * difference;
    ScaleOrder(sum, difference, 0.0);
    assert sum * 0.0 == 0.0;
  }

  lemma SquareOrder(a: real, b: real)
    requires a >= 0.0 && b >= 0.0
    ensures a > b <==> Square(a) > Square(b)
  {
    if a + b > 0.0 {
      DifferenceOfSquares(a, b, a + b, a - b);
    } else {
      assert a == b;
    }
  }

  lemma SquareNonNegative(x: real)
    ensures Square(x) >= 0.0
  {
    if x >= 0.0 {
      SquareOrder(x, 0.0);
    } else {
      SquareOrder(-x, 0.0);
      assert Square(x) == Square(-x);
    }
  }

  lemma SquareOfProduct(a: real, b: real)
    ensures Square(a * b) == Square(a) * Square(b)
  {
    assert (a * b) * (a * b) == (a * a) * (b * b);
  }

  /** Conversion to an integer, which drops the fraction. */
  function Truncate(x: real): int {
    if x >= 0.0 then x.Floor else -((-x).Floor)
  }

  lemma TruncateMonotone(x: real, y: real)
    requires x <= y
    ensures Truncate(x) <= Truncate(y)
  {
    if x >= 0.0 {
      FloorMonotone(x, y);
    } else if y >= 0.0 {
      FloorMonotone(0.0, y);
      FloorMonotone(0.0, -x);
    } else {
      FloorMonotone(-y, -x);
    }
  }

  lemma FloorMonotone(x: real, y: real)
    requires x <= y
    ensures x.Floor <= y.Floor
  {
    assert x.Floor as real <= x && y < (y.Floor + 1) as real;
  }

  lemma NonNegativeProduct(x: real, y: real)
    requires x >= 0.0 && y >= 0.0
    ensures x * y >= 0.0
  {
  }
}
