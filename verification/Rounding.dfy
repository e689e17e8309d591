/** Rounding of exact decimals to a fixed number of places, ties away from zero: what PostgreSQL does to a value
    stored in a `numeric` column, and `toFixed` (section 21.1.3.3 of ECMA-262) to an exact one. */
module Rounding {

  function Abs(x: real): (r: real)
    ensures r >= 0.0 && (r == x || r == -x)
  {
    if x < 0.0 then -x else x
  }

  /** The nearest integer, ties away from zero. */
  function Nearest(x: real): (n: int)
    ensures Abs(n as real - x) <= 0.5
    ensures x >= 0.0 ==> n >= 0 && n as real - x > -0.5
    ensures x <= 0.0 ==> n <= 0 && n as real - x < 0.5
  {
    if x >= 0.0 then (x + 0.5).Floor else -((-x + 0.5).Floor)
  }

  /** The contract of `Nearest` leaves no choice. */
  lemma NearestIsDetermined(x: real, n: int)
    requires Abs(n as real - x) <= 0.5
    requires x >= 0.0 ==> n as real - x > -0.5
    requires x <= 0.0 ==> n as real - x < 0.5
    ensures n == Nearest(x)
  {
    var m := Nearest(x);
    assert x >= 0.0 ==> -1.0 < m as real - n as real < 1.0;
    assert x <= 0.0 ==> -1.0 < m as real - n as real < 1.0;
  }

  lemma NearestIsOdd(x: real)
    ensures Nearest(-x) == -Nearest(x)
  {
  }

  lemma NearestIsMonotone(x: real, y: real)
    requires x <= y
    ensures Nearest(x) <= Nearest(y)
  {
    if x >= 0.0 {
      assert x + 0.5 <= y + 0.5;
    }
  }

  /** toFixed(4). */
  function Fixed4(x: real): (r: real)
    ensures Abs(r - x) <= 0.00005
  {
    Nearest(x * 10000.0) as real / 10000.0
  }

  /** toFixed(6). */
  function Fixed6(x: real): (r: real)
    ensures Abs(r - x) <= 0.0000005
    ensures x >= 0.0 ==> r >= 0.0
  {
    Nearest(x * 1000000.0) as real / 1000000.0
  }

  /** y is the multiple of 1/d nearest to x, ties away from zero. */
  predicate IsRounded(y: real, x: real, d: real) {
    && (y * d).Floor as real == y * d
    && -0.5 <= y * d - x * d <= 0.5
    && (x >= 0.0 ==> y * d - x * d > -0.5)
    && (x <= 0.0 ==> y * d - x * d < 0.5)
  }

  lemma WholeIsFloor(n: int, z: real)
    requires z == n as real
    ensures z.Floor as real == z
  {
  }

  /** toFixed(4) rounds to ten-thousandths. */
  lemma FourPlaces(x: real)
    ensures IsRounded(Fixed4(x), x, 10000.0)
  {
    hide Nearest;
    var n := Nearest(x * 10000.0);
    assert Fixed4(x) * 10000.0 == n as real;
    WholeIsFloor(n, Fixed4(x) * 10000.0);
  }

  /** toFixed(6) rounds to millionths. */
  lemma SixPlaces(x: real)
    ensures IsRounded(Fixed6(x), x, 1000000.0)
  {
    hide Nearest;
    var n := Nearest(x * 1000000.0);
    assert Fixed6(x) * 1000000.0 == n as real;
    WholeIsFloor(n, Fixed6(x) * 1000000.0);
  }

  lemma Fixed4IsMonotone(x: real, y: real)
    requires x <= y
    ensures Fixed4(x) <= Fixed4(y)
  {
    NearestIsMonotone(x * 10000.0, y * 10000.0);
  }

  lemma Fixed4IsPositive(x: real)
    ensures Fixed4(x) > 0.0 <==> x >= 0.00005
  {
    var n := Nearest(x * 10000.0);
    assert n >= 1 <==> x * 10000.0 >= 0.5;
  }

  lemma Product(a: real, b: real)
    requires a >= 0.0 && b >= 0.0
    ensures a * b >= 0.0
  {
  }

  lemma Distribute(a: real, x: real, y: real)
    ensures a * (x + y) == a * x + a * y
    ensures a * (x - y) == a * x - a * y
  {
  }

  /** An error is scaled with the quantity it is in. */
  lemma ScaleError(a: real, x: real, y: real, bound: real)
    requires a >= 0.0 && Abs(x - y) <= bound
    ensures Abs(a * x - a * y) <= a * bound
  {
    Product(a, bound - (x - y));
    Product(a, bound + (x - y));
    Distribute(a, bound, x - y);
    Distribute(a, x, y);
  }
}
