/** Facts about products of reals that the statistics need one at a time. */
module RealFacts {
  function Squared(x: real): real {
    x * x
  }

  lemma NonNegativeProduct(a: real, b: real)
    requires a >= 0.0 && b >= 0.0
    ensures a * b >= 0.0
  {
  }

  lemma PositiveProduct(a: real, b: real)
    requires a > 0.0 && b > 0.0
    ensures a * b > 0.0
  {
  }

  lemma Reassociate(a: real, b: real, c: real)
    ensures a * b * c == a * (b * c)
  {
  }

  lemma CancelPositive(a: real, b: real, v: real)
    requires v > 0.0
    ensures a * v <= b * v ==> a <= b
    ensures a * v == b * v ==> a == b
    ensures a * v < b * v ==> a < b
  {
  }

  lemma NonZeroProduct(a: real, b: real)
    requires a != 0.0 && b > 0.0
    ensures a * b != 0.0
  {
    CancelPositive(a, 0.0, b);
  }

  lemma PositiveSquare(d: real)
    requires d > 0.0
    ensures Squared(d) > 0.0
  {
    calc {
      Squared(d);
      d * d;
    > { PositiveProduct(d, d); }
      0.0;
    }
  }

  lemma SquaredSign(d: real)
    ensures d != 0.0 ==> Squared(d) > 0.0
    ensures d == 0.0 ==> Squared(d) == 0.0
  {
    if d > 0.0 {
      PositiveSquare(d);
    } else if d < 0.0 {
      PositiveSquare(-d);
      assert Squared(-d) == Squared(d);
    }
  }

  lemma SquaredScale(c: real, d: real)
    ensures Squared(c * d) == c * c * Squared(d)
  {
  }

  lemma LargerSquare(a: real, more: real)
    requires a >= 0.0 && more > 0.0
    ensures Squared(a) < Squared(a + more)
  {
    calc {
      Squared(a + more);
      (a + more) * (a + more);
      a * a + 2.0 * (a * more) + more * more;
    >= { NonNegativeProduct(a, more); }
      a * a + more * more;
    > { PositiveProduct(more, more); }
      a * a;
      Squared(a);
    }
  }

  lemma SameSquare(a: real, b: real)
    requires a >= 0.0 && b >= 0.0 && Squared(a) == Squared(b)
    ensures a == b
  {
    hide Squared;
    if a < b {
      assert a + (b - a) == b;
      LargerSquare(a, b - a);
    } else if b < a {
      assert b + (a - b) == a;
      LargerSquare(b, a - b);
    }
  }

  lemma SquareAtLeast16(z: real)
    requires z >= 4.0
    ensures Squared(z) >= 16.0
  {
    calc {
      Squared(z);
      16.0 + 8.0 * (z - 4.0) + (z - 4.0) * (z - 4.0);
    >= { NonNegativeProduct(z - 4.0, z - 4.0); }
      16.0;
    }
  }

  lemma SquareOrder(a: real, b: real)
    requires a >= 0.0 && b >= 0.0
    ensures a <= b <==> Squared(a) <= Squared(b)
  {
    hide Squared;
    if a < b {
      assert a + (b - a) == b;
      LargerSquare(a, b - a);
    } else if b < a {
      assert b + (a - b) == a;
      LargerSquare(b, a - b);
    }
  }

  lemma SmallSquare(z: real)
    requires Squared(z) < 16.0
    ensures -4.0 < z < 4.0
  {
    if z >= 4.0 {
      SquareAtLeast16(z);
    } else if z <= -4.0 {
      assert Squared(-z) == Squared(z);
      SquareAtLeast16(-z);
    }
  }

  lemma QuotientFacts(dev: real, std: real, c: real)
    requires std > 0.0 && c > 0.0
    ensures c * std > 0.0 && (c * dev) / (c * std) == dev / std
    ensures dev / std == 0.0 <==> dev == 0.0
    ensures c * dev == 0.0 <==> dev == 0.0
  {
    var q := dev / std;
    assert q * std == dev;
    assert q * (c * std) == c * dev;
    if dev != 0.0 {
      NonZeroProduct(dev, c);
    }
  }

  /** The squared quotient by a root of `v`. */
  lemma SquaredQuotient(a: real, s: real, v: real)
    requires s > 0.0 && Squared(s) == v
    ensures Squared(a / s) * v == Squared(a)
  {
    var q := a / s;
    assert q * s == a;
    calc {
      Squared(q) * v;
      Squared(q) * Squared(s);
      q * q * (s * s);
      (q * s) * (q * s);
      Squared(a);
    }
  }

  lemma MeanBound(sum: real, n: real, bound: real)
    requires n > 0.0 && 0.0 <= sum <= bound * n
    ensures 0.0 <= sum / n <= bound
  {
    assert sum / n * n == sum;
    CancelPositive(sum / n, bound, n);
    CancelPositive(0.0, sum / n, n);
  }

  // ----- The room a mean leaves between two bounds -----

  function Room(m: real, lo: real, hi: real): real {
    (hi - m) * (m - lo)
  }

  lemma RoomSign(m: real, lo: real, hi: real)
    requires lo <= m <= hi
    ensures Room(m, lo, hi) >= 0.0
  {
    calc {
      Room(m, lo, hi);
      (hi - m) * (m - lo);
    >= { NonNegativeProduct(hi - m, m - lo); }
      0.0;
    }
  }

  lemma RoomAtMostQuarter(m: real, lo: real, hi: real)
    ensures Room(m, lo, hi) <= Squared(hi - lo) / 4.0
  {
    var c := 2.0 * m - lo - hi;
    calc {
      4.0 * Room(m, lo, hi);
      Squared(hi - lo) - Squared(c);
    <= { SquaredSign(c); }
      Squared(hi - lo);
    }
  }
}
