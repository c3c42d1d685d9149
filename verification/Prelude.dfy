/** Small vocabulary shared by every module: options, extrema on reals, and
    real quotients rounded down or up. */
module Prelude {

  datatype Option<+T> = None | Some(value: T)
  {
    function GetOr(default: T): T {
      if Some? then value else default
    }
  }

  function Max(x: real, y: real): real { if x < y then y else x }

  function Min(x: real, y: real): real { if y < x then y else x }

  /** The least integer that is not below `x`. */
  function Ceiling(x: real): (n: int)
    ensures x <= n as real < x + 1.0
  {
    -((-x).Floor)
  }

  /** How many whole periods fit in a span of time. */
  function Periods(span: real, period: real): int
    requires period > 0.0
  {
    (span / period).Floor
  }

  lemma {:induction false} DivMonotone(x: real, y: real, period: real)
    requires period > 0.0 && x <= y
    ensures x / period <= y / period
  {
    var step := 1.0 / period;
    assert step * period == 1.0;
    assert step > 0.0;
    DivIsMul(x, period);
    DivIsMul(y, period);
    MulMonotone(x, y, step);
  }

  lemma {:induction false} DivIsMul(x: real, period: real)
    requires period > 0.0
    ensures x / period == x * (1.0 / period)
  {
    var step := 1.0 / period;
    assert (x * step) * period == x * (step * period);
  }

  lemma {:induction false} PeriodsNonNegative(x: real, period: real)
    requires period > 0.0 && x >= 0.0
    ensures Periods(x, period) >= 0
  {
    DivMonotone(0.0, x, period);
  }

  lemma {:induction false} MulMonotone(x: real, y: real, k: real)
    requires x <= y && k >= 0.0
    ensures x * k <= y * k
  {
    assert (y - x) * k >= 0.0;
  }

  lemma {:induction false} DivOfProduct(x: real, n: real)
    requires n > 0.0
    ensures x * n / n == x
  {
    var q := x * n / n;
    assert q * n == x * n;
    MulCancel(q, x, n);
  }

  lemma {:induction false} MulCancel(x: real, y: real, n: real)
    requires n > 0.0 && x * n == y * n
    ensures x == y
  {
    DivIsMul(x * n, n);
    DivIsMul(y * n, n);
    assert n * (1.0 / n) == 1.0;
    assert x * n * (1.0 / n) == x * (n * (1.0 / n));
    assert y * n * (1.0 / n) == y * (n * (1.0 / n));
  }

  /** Comparing a ratio with a bound needs no division. */
  lemma {:induction false} RatioAtLeast(x: real, n: real, bound: real)
    requires n > 0.0
    ensures x / n >= bound <==> x >= bound * n
  {
    DivOfProduct(bound, n);
    if x >= bound * n {
      DivMonotone(bound * n, x, n);
    } else {
      var q := x / n;
      assert q * n == x;
      if q >= bound {
        MulMonotone(bound, q, n);
      }
    }
  }

  /** `x` added up `n` times: the product of a real and a count, without a product. */
  function Scaled(x: real, n: nat): real {
    if n == 0 then 0.0 else x + Scaled(x, n - 1)
  }

  lemma {:induction false} ScaledIsProduct(x: real, n: nat)
    ensures Scaled(x, n) == x * n as real
  {
    if n > 0 {
      ScaledIsProduct(x, n - 1);
      assert x * (n - 1) as real == x * n as real - x;
    }
  }

  lemma {:induction false} ScaledGrows(x: real, m: nat, n: nat)
    requires m <= n && x >= 0.0
    ensures Scaled(x, m) <= Scaled(x, n)
  {
    if m < n {
      ScaledGrows(x, m, n - 1);
    }
  }

  lemma {:induction false} ScaledSign(x: real, n: nat)
    ensures x <= 0.0 ==> Scaled(x, n) <= 0.0
    ensures x >= 0.0 ==> Scaled(x, n) >= 0.0
    ensures x <= 1.0 ==> Scaled(x, n) <= n as real
  {
    if n > 0 {
      ScaledSign(x, n - 1);
    }
  }

  /** Comparing a ratio of counts with a bound needs no division. */
  lemma {:induction false} RatioAtLeastScaled(x: real, n: nat, bound: real)
    requires n > 0
    ensures x / n as real >= bound <==> x >= Scaled(bound, n)
  {
    ScaledIsProduct(bound, n);
    RatioAtLeast(x, n as real, bound);
  }

  /** The whole periods in a span, seen as the largest count that fits. */
  lemma {:induction false} PeriodsFit(span: real, period: real)
    requires period > 0.0 && span >= 0.0
    ensures Periods(span, period) >= 0
    ensures Scaled(period, Periods(span, period)) <= span < Scaled(period, Periods(span, period) + 1)
  {
    PeriodsNonNegative(span, period);
    var n := Periods(span, period);
    ScaledIsProduct(period, n);
    ScaledIsProduct(period, n + 1);
    RatioAtLeast(span, period, n as real);
    RatioAtLeast(span, period, (n + 1) as real);
  }
}
