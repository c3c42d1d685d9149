/** The control loop: served calls feed a smoothed latency per provider, and latency-aware routing
    reads it. The average is a weighted sum of the samples, stays among them, forgets at a
    geometric rate, and so after an explicit number of good samples a provider is tried first. */
module ControlLoop {
  import opened Prelude
  import opened Signals
  import opened Policies

  /** A provider's samples in milliseconds, in order. */
  function SamplesOf(samples: seq<Measure>, p: string): seq<real> {
    if samples == [] then []
    else
      var m := samples[|samples| - 1];
      SamplesOf(samples[..|samples| - 1], p) + if m.provider == p then [m.seconds * 1000.0] else []
  }

  /** The average of a list of samples; the first seeds it. */
  function Fold(alpha: real, xs: seq<real>): real
    requires xs != []
  {
    if |xs| == 1 then xs[0] else Ewma(alpha, Fold(alpha, xs[..|xs| - 1]), xs[|xs| - 1])
  }

  lemma {:induction false} FoldOneMore(alpha: real, xs: seq<real>, ms: real)
    requires xs != []
    ensures Fold(alpha, xs + [ms]) == Ewma(alpha, Fold(alpha, xs), ms)
  {
    assert (xs + [ms])[..|xs + [ms]| - 1] == xs;
  }

  /** Each provider's average is that of its own samples, and only sampled providers have one. */
  lemma {:induction false} AverageOfProvider(alpha: real, samples: seq<Measure>, p: string)
    ensures p in Averages(alpha, samples) <==> SamplesOf(samples, p) != []
    ensures p in Averages(alpha, samples) ==> Averages(alpha, samples)[p] == Fold(alpha, SamplesOf(samples, p))
  {
    if samples != [] {
      var before, m := samples[..|samples| - 1], samples[|samples| - 1];
      AverageOfProvider(alpha, before, p);
      var xs := SamplesOf(before, p);
      if m.provider == p && xs != [] {
        var ms := m.seconds * 1000.0;
        FoldOneMore(alpha, xs, ms);
        assert SamplesOf(samples, p) == xs + [ms];
      } else if m.provider == p {
        assert SamplesOf(samples, p) == [m.seconds * 1000.0];
      } else {
        assert SamplesOf(samples, p) == xs;
      }
    }
  }

  // ---------------------------------------------------------------- closed form

  function Power(x: real, n: nat): real {
    if n == 0 then 1.0 else x * Power(x, n - 1)
  }

  /** The weight of sample `i` among `n`. */
  function WeightOf(alpha: real, n: nat, i: nat): real
    requires i < n
  {
    (if i == 0 then 1.0 else alpha) * Power(1.0 - alpha, n - 1 - i)
  }

  /** The first `k` of the samples in the average of `n`. */
  function WeightedSum(alpha: real, xs: seq<real>, n: nat, k: nat): real
    requires k <= n && k <= |xs|
  {
    if k == 0 then 0.0 else WeightedSum(alpha, xs, n, k - 1) + WeightOf(alpha, n, k - 1) * xs[k - 1]
  }

  lemma {:induction false} WeightFades(alpha: real, n: nat, i: nat)
    requires i < n
    ensures WeightOf(alpha, n + 1, i) == (1.0 - alpha) * WeightOf(alpha, n, i)
  {
    var head, q, p := if i == 0 then 1.0 else alpha, 1.0 - alpha, Power(1.0 - alpha, n - 1 - i);
    assert Power(1.0 - alpha, n - i) == q * p;
    assert head * (q * p) == q * (head * p);
  }

  lemma {:induction false} SumFades(alpha: real, xs: seq<real>, n: nat, k: nat)
    requires k <= n && k <= |xs|
    ensures WeightedSum(alpha, xs, n + 1, k) == (1.0 - alpha) * WeightedSum(alpha, xs, n, k)
  {
    if k > 0 {
      SumFades(alpha, xs, n, k - 1);
      WeightFades(alpha, n, k - 1);
      Spread(1.0 - alpha, WeightedSum(alpha, xs, n, k - 1), WeightOf(alpha, n, k - 1), xs[k - 1]);
    }
  }

  lemma {:induction false} Spread(q: real, s: real, w: real, x: real)
    ensures q * (s + w * x) == q * s + q * w * x
  {
  }

  lemma {:induction false} SumOfPrefix(alpha: real, xs: seq<real>, ys: seq<real>, n: nat, k: nat)
    requires k <= n && k <= |xs| && k <= |ys| && xs[..k] == ys[..k]
    ensures WeightedSum(alpha, xs, n, k) == WeightedSum(alpha, ys, n, k)
  {
    if k > 0 {
      assert xs[..k][..k - 1] == xs[..k - 1] && ys[..k][..k - 1] == ys[..k - 1];
      assert xs[..k][k - 1] == ys[..k][k - 1];
      SumOfPrefix(alpha, xs, ys, n, k - 1);
    }
  }

  /** The average in closed form: weights that fade by a constant factor with age. */
  lemma {:induction false} ClosedForm(alpha: real, xs: seq<real>)
    requires xs != []
    ensures Fold(alpha, xs) == WeightedSum(alpha, xs, |xs|, |xs|)
  {
    var n := |xs| - 1;
    if n > 0 {
      ClosedForm(alpha, xs[..n]);
      SumFades(alpha, xs, n, n);
      SumOfPrefix(alpha, xs, xs[..n], n, n);
      assert WeightOf(alpha, n + 1, n) == alpha * Power(1.0 - alpha, 0) == alpha;
    }
  }

  // ---------------------------------------------------------------- hull and convergence

  predicate Rate(alpha: real) {
    0.0 < alpha <= 1.0
  }

  predicate AllWithin(xs: seq<real>, lo: real, hi: real) {
    forall i | 0 <= i < |xs| :: lo <= xs[i] <= hi
  }

  lemma {:induction false} Scales(k: real, x: real, y: real)
    requires k >= 0.0 && x <= y
    ensures k * x <= k * y
  {
    MulMonotone(x, y, k);
  }

  lemma {:induction false} Scaling(k: real, x: real, y: real) returns (a: real, b: real)
    requires k >= 0.0 && x <= y
    ensures a == k * x && b == k * y && a <= b
  {
    Scales(k, x, y);
    a, b := k * x, k * y;
  }

  lemma {:induction false} Mixed(alpha: real, x: real)
    ensures alpha * x + (1.0 - alpha) * x == x
  {
  }

  lemma {:induction false} MixedBelow(alpha: real, u: real, v: real, x: real, y: real)
    requires 0.0 <= alpha <= 1.0 && u <= x && v <= y
    ensures alpha * u + (1.0 - alpha) * v <= alpha * x + (1.0 - alpha) * y
  {
    var a, c := Scaling(alpha, u, x);
    var b, d := Scaling(1.0 - alpha, v, y);
    AddBoth(a, b, c, d);
  }

  lemma {:induction false} AddBoth(a: real, b: real, c: real, d: real)
    requires a <= c && b <= d
    ensures a + b <= c + d
  {
  }

  lemma {:induction false} BetweenBoth(alpha: real, prev: real, ms: real, lo: real, hi: real)
    requires Rate(alpha) && lo <= prev <= hi && lo <= ms <= hi
    ensures lo <= Ewma(alpha, prev, ms) <= hi
  {
    MixedBelow(alpha, lo, lo, ms, prev);
    MixedBelow(alpha, ms, prev, hi, hi);
    Mixed(alpha, lo);
    Mixed(alpha, hi);
  }

  /** The average never leaves the range of the samples. */
  lemma {:induction false} StaysInHull(alpha: real, xs: seq<real>, lo: real, hi: real)
    requires Rate(alpha) && xs != [] && AllWithin(xs, lo, hi)
    ensures lo <= Fold(alpha, xs) <= hi
  {
    if |xs| > 1 {
      StaysInHull(alpha, xs[..|xs| - 1], lo, hi);
      BetweenBoth(alpha, Fold(alpha, xs[..|xs| - 1]), xs[|xs| - 1], lo, hi);
    }
  }

  /** How far a value lies outside a range. */
  function Distance(x: real, lo: real, hi: real): real {
    Max(0.0, Max(lo - x, x - hi))
  }

  lemma {:induction false} MixedAbove(alpha: real, x: real, d: real)
    ensures alpha * x + (1.0 - alpha) * (x + d) == x + (1.0 - alpha) * d
  {
    var q := 1.0 - alpha;
    assert q * (x + d) == q * x + q * d;
    Mixed(alpha, x);
  }

  lemma {:induction false} OneStepCloser(alpha: real, prev: real, ms: real, lo: real, hi: real)
    requires Rate(alpha) && lo <= ms <= hi
    ensures Distance(Ewma(alpha, prev, ms), lo, hi) <= (1.0 - alpha) * Distance(prev, lo, hi)
  {
    var d := Distance(prev, lo, hi);
    MixedBelow(alpha, ms, prev, hi, hi + d);
    MixedAbove(alpha, hi, d);
    MixedBelow(alpha, lo, lo + -d, ms, prev);
    MixedAbove(alpha, lo, -d);
    Negated(1.0 - alpha, d);
    NonNegative(1.0 - alpha, d);
    DistanceAtMost(Ewma(alpha, prev, ms), lo, hi, (1.0 - alpha) * d);
  }

  lemma {:induction false} Negated(q: real, d: real)
    ensures q * -d == -(q * d)
  {
  }

  lemma {:induction false} NonNegative(q: real, d: real)
    requires q >= 0.0 && d >= 0.0
    ensures q * d >= 0.0
  {
  }

  lemma {:induction false} DistanceAtMost(x: real, lo: real, hi: real, d: real)
    requires lo - d <= x <= hi + d && d >= 0.0
    ensures Distance(x, lo, hi) <= d
  {
  }

  /** What is left after further samples: their average started from an earlier one. */
  function FoldFrom(alpha: real, prev: real, xs: seq<real>): real {
    if xs == [] then prev else Ewma(alpha, FoldFrom(alpha, prev, xs[..|xs| - 1]), xs[|xs| - 1])
  }

  lemma {:induction false} FoldAppends(alpha: real, xs: seq<real>, more: seq<real>)
    requires xs != []
    ensures Fold(alpha, xs + more) == FoldFrom(alpha, Fold(alpha, xs), more)
  {
    if more == [] {
      assert xs + more == xs;
    } else {
      FoldAppends(alpha, xs, more[..|more| - 1]);
      assert (xs + more)[..|xs + more| - 1] == xs + more[..|more| - 1];
    }
  }

  lemma {:induction false} PowerRange(q: real, n: nat)
    requires 0.0 <= q <= 1.0
    ensures 0.0 <= Power(q, n) <= 1.0
  {
    if n > 0 {
      PowerRange(q, n - 1);
      StaysInUnit(q, Power(q, n - 1));
    }
  }

  lemma {:induction false} StaysInUnit(q: real, p: real)
    requires 0.0 <= q <= 1.0 && 0.0 <= p <= 1.0
    ensures 0.0 <= q * p <= 1.0
  {
    NonNegative(q, p);
    NonNegative(q, 1.0 - p);
    assert q * (1.0 - p) == q - q * p;
  }

  /** A distance that has shrunk by a factor `n` times. */
  function Decayed(q: real, d: real, n: nat): real {
    if n == 0 then d else q * Decayed(q, d, n - 1)
  }

  lemma {:induction false} DecayedIsPower(q: real, d: real, n: nat)
    ensures Decayed(q, d, n) == Power(q, n) * d
  {
    if n > 0 {
      DecayedIsPower(q, d, n - 1);
      Regroup(q, Power(q, n - 1), d);
    }
  }

  lemma {:induction false} Regroup(q: real, p: real, d: real)
    ensures q * (p * d) == q * p * d
  {
  }

  /** After `n` samples in a range, the distance to it has shrunk `n` times. */
  lemma {:induction false} Converges(alpha: real, prev: real, xs: seq<real>, lo: real, hi: real)
    requires Rate(alpha) && AllWithin(xs, lo, hi)
    ensures Distance(FoldFrom(alpha, prev, xs), lo, hi) <= Decayed(1.0 - alpha, Distance(prev, lo, hi), |xs|)
  {
    ConvergesBy(alpha, 1.0 - alpha, prev, Distance(prev, lo, hi), xs, lo, hi, |xs|);
    assert xs[..|xs|] == xs;
  }

  lemma {:induction false} ConvergesBy(alpha: real, q: real, prev: real, d: real, xs: seq<real>, lo: real, hi: real,
      n: nat)
    requires Rate(alpha) && q == 1.0 - alpha && AllWithin(xs, lo, hi) && d == Distance(prev, lo, hi) && n <= |xs|
    ensures Distance(FoldFrom(alpha, prev, xs[..n]), lo, hi) <= Decayed(q, d, n)
  {
    var x, bound := prev, d;
    for i := 0 to n
      invariant x == FoldFrom(alpha, prev, xs[..i]) && bound == Decayed(q, d, i) && Distance(x, lo, hi) <= bound
    {
      x, bound := CloserByOne(alpha, q, prev, d, xs, lo, hi, i, x, bound);
    }
  }

  lemma {:induction false} CloserByOne(alpha: real, q: real, prev: real, d: real, xs: seq<real>, lo: real, hi: real,
      n: nat, x: real, bound: real)
    returns (more: real, closer: real)
    requires Rate(alpha) && q == 1.0 - alpha && AllWithin(xs, lo, hi) && n < |xs|
    requires x == FoldFrom(alpha, prev, xs[..n]) && bound == Decayed(q, d, n) && Distance(x, lo, hi) <= bound
    ensures more == FoldFrom(alpha, prev, xs[..n + 1]) && closer == Decayed(q, d, n + 1)
    ensures Distance(more, lo, hi) <= closer
  {
    more := FoldFromNext(alpha, prev, xs, n, x);
    closer := DecayedNext(q, d, n, bound);
    CloserYet(alpha, q, x, xs[n], lo, hi, bound, more, closer);
  }

  lemma {:induction false} DecayedNext(q: real, d: real, n: nat, bound: real) returns (closer: real)
    requires bound == Decayed(q, d, n)
    ensures closer == q * bound && closer == Decayed(q, d, n + 1)
  {
    closer := q * bound;
  }

  lemma {:induction false} FoldFromNext(alpha: real, prev: real, xs: seq<real>, n: nat, x: real)
    returns (more: real)
    requires n < |xs| && x == FoldFrom(alpha, prev, xs[..n])
    ensures more == Ewma(alpha, x, xs[n]) && more == FoldFrom(alpha, prev, xs[..n + 1])
  {
    more := Ewma(alpha, x, xs[n]);
    assert xs[..n + 1][..n] == xs[..n];
  }

  lemma {:induction false} CloserYet(alpha: real, q: real, less: real, ms: real, lo: real, hi: real, bound: real,
      more: real, closer: real)
    requires Rate(alpha) && q == 1.0 - alpha && lo <= ms <= hi && Distance(less, lo, hi) <= bound
    requires more == Ewma(alpha, less, ms) && closer == q * bound
    ensures Distance(more, lo, hi) <= closer
  {
    OneStepCloser(alpha, less, ms, lo, hi);
    var a, b := Scaling(q, Distance(less, lo, hi), bound);
  }

  /** Bernoulli's inequality in the form that bounds the decay. */
  lemma {:induction false} DecayBound(alpha: real, n: nat)
    requires Rate(alpha)
    ensures Power(1.0 - alpha, n) * (1.0 + Scaled(alpha, n)) <= 1.0
    ensures Power(1.0 - alpha, n) >= 0.0 && Scaled(alpha, n) >= 0.0
  {
    PowerRange(1.0 - alpha, n);
    ScaledSign(alpha, n);
    if n > 0 {
      var q, p, s := 1.0 - alpha, Power(1.0 - alpha, n - 1), Scaled(alpha, n - 1);
      DecayBound(alpha, n - 1);
      OneFactor(alpha, s);
      Scales(p, q * (1.0 + (alpha + s)), 1.0 + s);
      Swap(q, p, 1.0 + (alpha + s));
    }
  }

  lemma {:induction false} Swap(q: real, p: real, x: real)
    ensures q * p * x == p * (q * x)
  {
  }

  lemma {:induction false} OneFactor(alpha: real, s: real)
    requires Rate(alpha) && s >= 0.0
    ensures (1.0 - alpha) * (1.0 + (alpha + s)) <= 1.0 + s
  {
    NonNegative(alpha, alpha + s);
    assert (1.0 - alpha) * (1.0 + (alpha + s)) == 1.0 + s - alpha * (alpha + s);
  }

  /** Once the distance has decayed below a gap, so has the average's distance. */
  lemma {:induction false} CloseEnough(alpha: real, prev: real, xs: seq<real>, lo: real, hi: real, gap: real)
    requires Rate(alpha) && AllWithin(xs, lo, hi)
    requires Decayed(1.0 - alpha, Distance(prev, lo, hi), |xs|) < gap
    ensures FoldFrom(alpha, prev, xs) < hi + gap
  {
    Converges(alpha, prev, xs, lo, hi);
    WithinGap(FoldFrom(alpha, prev, xs), lo, hi, Decayed(1.0 - alpha, Distance(prev, lo, hi), |xs|), gap);
  }

  /** How many samples that takes: `n` are enough when `n` times `alpha` times the gap covers the
      distance. */
  lemma {:induction false} EnoughSamples(alpha: real, n: nat, d0: real, gap: real)
    requires Rate(alpha) && gap > 0.0 && 0.0 <= d0 <= Scaled(alpha, n) * gap
    ensures Decayed(1.0 - alpha, d0, n) < gap
  {
    DecayBound(alpha, n);
    DecayedIsPower(1.0 - alpha, d0, n);
    BelowGap(Power(1.0 - alpha, n), Scaled(alpha, n), d0, gap);
  }

  lemma {:induction false} WithinGap(x: real, lo: real, hi: real, bound: real, gap: real)
    requires Distance(x, lo, hi) <= bound < gap
    ensures x < hi + gap
  {
  }

  lemma {:induction false} BelowGap(p: real, s: real, d0: real, gap: real)
    requires p >= 0.0 && s >= 0.0 && p * (1.0 + s) <= 1.0 && gap > 0.0 && 0.0 <= d0 <= s * gap
    ensures p * d0 < gap
  {
    Scales(p, d0, s * gap);
    MulMonotone(p * (1.0 + s), 1.0, gap);
    Opened(p, s, gap);
    if p > 0.0 {
      Positive(p, gap);
    }
  }

  lemma {:induction false} Opened(p: real, s: real, gap: real)
    ensures p * (1.0 + s) * gap == p * gap + p * (s * gap)
    ensures p == 0.0 ==> p * (s * gap) == 0.0
  {
  }

  lemma {:induction false} Positive(p: real, gap: real)
    requires p > 0.0 && gap > 0.0
    ensures p * gap > 0.0
  {
  }

  lemma {:induction false} SamplesAppend(samples: seq<Measure>, more: seq<Measure>, p: string)
    ensures SamplesOf(samples + more, p) == SamplesOf(samples, p) + SamplesOf(more, p)
  {
    if more == [] {
      assert samples + more == samples;
    } else {
      var n := |more| - 1;
      SamplesAppend(samples, more[..n], p);
      assert (samples + more)[..|samples + more| - 1] == samples + more[..n];
    }
  }

  /** Further samples, interleaved with those of other providers, bring a provider's average
      within any gap of their range. */
  lemma {:induction false} AverageComesClose(alpha: real, samples: seq<Measure>, more: seq<Measure>, p: string,
                          lo: real, hi: real, gap: real)
    requires Rate(alpha) && p in Averages(alpha, samples)
    requires AllWithin(SamplesOf(more, p), lo, hi)
    requires Decayed(1.0 - alpha, Distance(Averages(alpha, samples)[p], lo, hi), |SamplesOf(more, p)|) < gap
    ensures p in Averages(alpha, samples + more) && Averages(alpha, samples + more)[p] < hi + gap
  {
    AverageOfProvider(alpha, samples, p);
    AverageOfProvider(alpha, samples + more, p);
    SamplesAppend(samples, more, p);
    FoldAppends(alpha, SamplesOf(samples, p), SamplesOf(more, p));
    CloseEnough(alpha, Averages(alpha, samples)[p], SamplesOf(more, p), lo, hi, gap);
  }

  lemma {:induction false} LowerGoesFirst(targets: seq<Target>, latency: map<string, real>, a: nat, b: nat)
    requires a < |targets| && b < |targets| && a != b && targets[a].provider in latency
    requires targets[b].provider in latency ==> latency[targets[a].provider] < latency[targets[b].provider]
    ensures ComesBefore(Sort(Enumerated(targets, LatencyKey(latency))), a, b)
  {
    LatencyAwareOrder(targets, latency, a, b);
  }

  /** So after enough samples latency-aware routing puts the provider ahead of every one whose
      average stays a gap above their range, and of every one without samples. */
  lemma {:induction false} FasterProviderGoesFirst(alpha: real, samples: seq<Measure>, more: seq<Measure>,
      targets: seq<Target>,
                                a: nat, b: nat, lo: real, hi: real, gap: real, n: nat)
    requires a < |targets| && b < |targets| && a != b && Rate(alpha) && gap > 0.0
    requires targets[a].provider in Averages(alpha, samples)
    requires AllWithin(SamplesOf(more, targets[a].provider), lo, hi) && n == |SamplesOf(more, targets[a].provider)|
    requires Scaled(alpha, n) * gap >= Distance(Averages(alpha, samples)[targets[a].provider], lo, hi)
    requires var latency := Averages(alpha, samples + more);
             targets[b].provider in latency ==> latency[targets[b].provider] >= hi + gap
    ensures ComesBefore(Sort(Enumerated(targets, LatencyKey(Averages(alpha, samples + more)))), a, b)
  {
    EnoughSamples(alpha, n, Distance(Averages(alpha, samples)[targets[a].provider], lo, hi), gap);
    AverageComesClose(alpha, samples, more, targets[a].provider, lo, hi, gap);
    LowerGoesFirst(targets, Averages(alpha, samples + more), a, b);
  }
}
