/** The platform fee of a transfer, in whole cents. */
module Fees {
  import opened Domain
  import Rounding

  /** Division rounding to the nearest integer, halves away from zero: what `toFixed` (section 21.1.3.3 of
      ECMA-262) does to an exact value, which it rounds by magnitude with ties going up. */
  function RoundHalfAway(n: int, d: int): (r: int)
    requires d > 0
    ensures -d <= 2 * (r * d - n) <= d
    ensures n >= 0 ==> r >= 0 && 2 * (r * d - n) > -d
    ensures n <= 0 ==> r <= 0 && 2 * (r * d - n) < d
  {
    if n >= 0 then (2 * n + d) / (2 * d) else -((2 * -n + d) / (2 * d))
  }

  /** The exact fee, in ten-thousandths of a cent. */
  function ExactFee(plan: FeePlan, amount: int): int {
    plan.fixed * 10000 + amount * plan.rate
  }

  /** The fee is within half a cent of exact, a tie going up, and zero when a negative plan yields less. */
  function Fee(plan: FeePlan, amount: int): (fee: int)
    ensures fee >= 0
    ensures ExactFee(plan, amount) >= 0 ==> -5000 < 10000 * fee - ExactFee(plan, amount) <= 5000
    ensures ExactFee(plan, amount) <= 0 ==> fee == 0
  {
    var rounded := RoundHalfAway(ExactFee(plan, amount), 10000);
    if rounded > 0 then rounded else 0
  }

  predicate NonNegative(plan: FeePlan) {
    plan.fixed >= 0 && plan.rate >= 0
  }

  /** The nearest integer is unique apart from the tie rule, so the contract of `RoundHalfAway` fixes it. */
  lemma RoundingIsDetermined(n: int, d: int, r: int)
    requires d > 0
    requires -d <= 2 * (r * d - n) <= d
    requires n >= 0 ==> 2 * (r * d - n) > -d
    requires n <= 0 ==> 2 * (r * d - n) < d
    ensures r == RoundHalfAway(n, d)
  {
    var q := RoundHalfAway(n, d);
    if r > q {
      Apart(q, r, d);
    } else if r < q {
      Apart(r, q, d);
    }
  }

  /** On quotients of integers it is the rounding of exact decimals. */
  lemma RoundingAgrees(n: int, d: int)
    requires d > 0
    ensures RoundHalfAway(n, d) == Rounding.Nearest(n as real / d as real)
  {
    hide RoundHalfAway, Rounding.Nearest;
    var r, x, s := RoundHalfAway(n, d), n as real / d as real, d as real;
    var gap := 2 * (r * d - n);
    assert gap as real == 2.0 * (r as real * s - x * s) by {
      assert x * s == n as real;
      assert r as real * s == (r * d) as real;
    }
    Scale(r as real - x, s, gap as real);
    assert n >= 0 <==> x >= 0.0;
    Rounding.NearestIsDetermined(x, r);
  }

  lemma Scale(e: real, s: real, gap: real)
    requires s > 0.0 && gap == 2.0 * (e * s)
    ensures gap <= s <==> e <= 0.5
    ensures gap < s <==> e < 0.5
    ensures -s <= gap <==> -0.5 <= e
    ensures -s < gap <==> -0.5 < e
  {
    Sign(e - 0.5, s);
    Sign(e + 0.5, s);
  }

  lemma Sign(a: real, s: real)
    requires s > 0.0
    ensures a * s > 0.0 <==> a > 0.0
    ensures a * s < 0.0 <==> a < 0.0
  {
  }

  lemma Apart(low: int, high: int, d: int)
    requires low < high && d > 0
    ensures low * d + d <= high * d
  {
    Product(high - low - 1, d);
    assert high * d == (high - low - 1) * d + low * d + d;
  }

  lemma {:induction false} Product(x: nat, y: nat)
    ensures x * y >= 0
  {
    if x > 0 {
      Product(x - 1, y);
      assert x * y == (x - 1) * y + y;
    }
  }

  /** Whatever the signs in the plan: the fee is the exact one to the nearest cent, ties up, and never negative. */
  lemma FeeIsExactOrZero(plan: FeePlan, amount: int)
    ensures var exact := 10000 * plan.fixed + amount * plan.rate;
            && (exact >= 0 ==> -5000 < 10000 * Fee(plan, amount) - exact <= 5000)
            && (exact <= 0 ==> Fee(plan, amount) == 0)
  {
  }

  /** The fee charged is within half a cent of the exact fee. */
  lemma FeeWithinHalfCent(plan: FeePlan, amount: int)
    requires NonNegative(plan) && amount >= 0
    ensures -5000 < 10000 * Fee(plan, amount) - ExactFee(plan, amount) <= 5000
  {
    assert amount * plan.rate >= 0;
  }

  /** A larger transfer never pays a smaller fee. */
  lemma FeeIsMonotone(plan: FeePlan, small: int, large: int)
    requires NonNegative(plan) && small <= large
    ensures Fee(plan, small) <= Fee(plan, large)
  {
    assert (large - small) * plan.rate >= 0;
    assert ExactFee(plan, small) <= ExactFee(plan, large);
  }

  function Total(parts: seq<int>): int {
    if parts == [] then 0 else parts[0] + Total(parts[1..])
  }

  function TotalFees(plan: FeePlan, parts: seq<int>): int {
    if parts == [] then 0 else Fee(plan, parts[0]) + TotalFees(plan, parts[1..])
  }

  /** Rounding errors of separate fees add up to at most half a cent each. */
  lemma {:induction false} SeparateFeesDrift(plan: FeePlan, parts: seq<int>)
    requires NonNegative(plan)
    requires forall i :: 0 <= i < |parts| ==> parts[i] >= 0
    ensures Total(parts) >= 0
    ensures -5000 * |parts| <= 10000 * TotalFees(plan, parts) - (|parts| * plan.fixed * 10000 + Total(parts) * plan.rate)
         <= 5000 * |parts|
  {
    if parts != [] {
      SeparateFeesDrift(plan, parts[1..]);
      FeeWithinHalfCent(plan, parts[0]);
      Distribute(parts[0], Total(parts[1..]), plan.rate);
      Distribute(1, |parts[1..]|, plan.fixed);
    }
  }

  lemma Distribute(x: int, y: int, z: int)
    ensures (x + y) * z == x * z + y * z
  {
  }

  /** Splitting one payment into n parts costs n-1 further fixed fees, give or take (n+1)/2 cents. */
  lemma SplittingAPayment(plan: FeePlan, parts: seq<int>)
    requires NonNegative(plan) && parts != []
    requires forall i :: 0 <= i < |parts| ==> parts[i] >= 0
    ensures var extra := TotalFees(plan, parts) - Fee(plan, Total(parts)) - (|parts| - 1) * plan.fixed;
            -(|parts| + 1) <= 2 * extra <= |parts| + 1
  {
    SeparateFeesDrift(plan, parts);
    FeeWithinHalfCent(plan, Total(parts));
    Distribute(1, |parts| - 1, plan.fixed);
  }
}
